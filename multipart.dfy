/** Model of object/crud.py: the multipart large-file upload driver, the object-key rule shared
    by the two file uploads, and the public URL returned after a download-and-upload.

    The file is a byte sequence. The S3 client is a class whose ghost `log` records every call
    made to it together with the store's answer; each call may fail (an exception in the
    source), chosen arbitrarily by the store. */
module Multipart {
  import opened Wrappers

  type byte = bv8

  // ---------------------------------------------------------------------------------------------
  // Chunk plan
  // ---------------------------------------------------------------------------------------------

  /** Size of every part but the last: 5 MiB. */
  const ChunkSize: nat := 5_242_880

  /** Number of parts: the integer quotient of the file size by the part size, plus one.
      This is not a ceiling: an empty file and every exact multiple of the part size get a
      trailing part of length zero. */
  function ChunkCount(fileSize: nat): (n: nat)
    ensures n >= 1
  {
    fileSize / ChunkSize + 1
  }

  /** The planned parts, at ChunkSize bytes each, stop short of the end of the file before the
      last part and reach past it with the last. */
  lemma ChunkCountBounds(fileSize: nat)
    ensures ChunkSize * (ChunkCount(fileSize) - 1) <= fileSize < ChunkSize * ChunkCount(fileSize)
  {
  }

  /** Offset of the part with 0-based index i. */
  function PartOffset(i: nat): nat
  {
    ChunkSize * i
  }

  /** Number of bytes requested for the part with 0-based index i. */
  function PartLength(fileSize: nat, i: nat): int
  {
    Min(ChunkSize, fileSize - ChunkSize * i)
  }

  lemma ChunkCountEdgeCases(k: nat)
    ensures ChunkCount(0) == 1 && PartLength(0, 0) == 0
    ensures ChunkCount(ChunkSize * k) == k + 1 && PartLength(ChunkSize * k, k) == 0
  {
  }

  lemma PartLengthBounds(fileSize: nat, i: nat)
    requires i < ChunkCount(fileSize)
    ensures 0 <= PartLength(fileSize, i) <= ChunkSize
    ensures PartOffset(i) + PartLength(fileSize, i) <= fileSize
    ensures i + 1 < ChunkCount(fileSize) ==> PartLength(fileSize, i) == ChunkSize
    ensures i + 1 == ChunkCount(fileSize) ==> PartLength(fileSize, i) == fileSize % ChunkSize
  {
    ChunkCountBounds(fileSize);
  }

  /** Consecutive parts touch: each part starts where the previous one ends. */
  lemma PartsContiguous(fileSize: nat, i: nat)
    requires i + 1 < ChunkCount(fileSize)
    ensures PartOffset(i + 1) == PartOffset(i) + PartLength(fileSize, i)
  {
    PartLengthBounds(fileSize, i);
  }

  /** Sum of the lengths of the first k parts. */
  function TotalLength(fileSize: nat, k: nat): int
  {
    if k == 0 then 0 else TotalLength(fileSize, k - 1) + PartLength(fileSize, k - 1)
  }

  lemma {:induction false} PlannedLengthsPrefix(fileSize: nat, k: nat)
    requires k <= ChunkCount(fileSize)
    ensures TotalLength(fileSize, k) == Min(ChunkSize * k, fileSize)
  {
    if k > 0 {
      PlannedLengthsPrefix(fileSize, k - 1);
      PartLengthBounds(fileSize, k - 1);
    }
  }

  /** The lengths of all planned parts add up to the file size. */
  lemma PlannedLengthsSumToSize(fileSize: nat)
    ensures TotalLength(fileSize, ChunkCount(fileSize)) == fileSize
  {
    PlannedLengthsPrefix(fileSize, ChunkCount(fileSize));
  }

  /** The bytes a read of `count` bytes returns after a seek to `offset`: reading stops at the end
      of the file, a seek past the end reads nothing, and a negative count reads to the end. */
  function ReadAt(file: seq<byte>, offset: nat, count: int): seq<byte>
  {
    if offset >= |file| then []
    else if count < 0 then file[offset..]
    else file[offset..Min(offset + count, |file|)]
  }

  /** The body sent for the part with 0-based index i. */
  function Chunk(file: seq<byte>, i: nat): seq<byte>
  {
    ReadAt(file, PartOffset(i), PartLength(|file|, i))
  }

  /** Every planned read returns exactly the bytes it asked for. */
  lemma ChunkIsPlannedRange(file: seq<byte>, i: nat)
    requires i < ChunkCount(|file|)
    ensures PartOffset(i) + PartLength(|file|, i) <= |file|
    ensures Chunk(file, i) == file[PartOffset(i)..PartOffset(i) + PartLength(|file|, i)]
  {
    PartLengthBounds(|file|, i);
  }

  function Concat(pieces: seq<seq<byte>>): seq<byte>
  {
    if pieces == [] then [] else Concat(pieces[..|pieces| - 1]) + pieces[|pieces| - 1]
  }

  /** The bodies of all planned parts, in part order. */
  function Chunks(file: seq<byte>): (pieces: seq<seq<byte>>)
    ensures |pieces| == ChunkCount(|file|)
  {
    seq(ChunkCount(|file|), i requires 0 <= i => Chunk(file, i))
  }

  lemma {:induction false} ChunkPrefixReassembles(file: seq<byte>, k: nat)
    requires k <= ChunkCount(|file|)
    ensures Concat(Chunks(file)[..k]) == file[..Min(ChunkSize * k, |file|)]
  {
    if k > 0 {
      ChunkPrefixReassembles(file, k - 1);
      assert Chunks(file)[..k][..k - 1] == Chunks(file)[..k - 1];
      ChunkIsPlannedRange(file, k - 1);
      PartsContiguousPrefix(|file|, k - 1);
      var lo, hi := PartOffset(k - 1), PartOffset(k - 1) + PartLength(|file|, k - 1);
      assert file[..hi] == file[..lo] + file[lo..hi];
    }
  }

  /** The first k parts end exactly where part k starts, or at the end of the file. */
  lemma PartsContiguousPrefix(fileSize: nat, k: nat)
    requires k < ChunkCount(fileSize)
    ensures Min(ChunkSize * k, fileSize) == PartOffset(k)
    ensures Min(ChunkSize * (k + 1), fileSize) == PartOffset(k) + PartLength(fileSize, k)
  {
    PartLengthBounds(fileSize, k);
  }

  /** Concatenating the planned parts gives back the whole file: the parts cover every byte once. */
  lemma ChunksReassemble(file: seq<byte>)
    ensures Concat(Chunks(file)) == file
  {
    var n := ChunkCount(|file|);
    ChunkPrefixReassembles(file, n);
    assert Chunks(file)[..n] == Chunks(file);
  }

  // ---------------------------------------------------------------------------------------------
  // Object keys and the public URL
  // ---------------------------------------------------------------------------------------------

  /** The last component of a POSIX path: everything after the last '/'. */
  function Basename(path: string): (name: string)
    ensures '/' !in name
    ensures |name| <= |path| && path[|path| - |name|..] == name
    ensures |name| < |path| ==> path[|path| - |name| - 1] == '/'
  {
    if path == [] || path[|path| - 1] == '/' then []
    else Basename(path[..|path| - 1]) + [path[|path| - 1]]
  }

  /** The key an upload writes to: the given object name, or else the file's basename. */
  function ObjectKey(filePath: string, objectName: Option<string>): string
  {
    if objectName.None? then Basename(filePath) else objectName.value
  }

  const PublicUrlPrefix: string := "https://s3-us-west-2.amazonaws.com/"

  /** The public URL of an object uploaded by the download-and-upload operation. */
  function PublicUrl(bucket: string, key: string): string
  {
    PublicUrlPrefix + bucket + "/" + key
  }

  /** Splits at the first occurrence of c; None when c does not occur. */
  function SplitAtFirst(s: string, c: char): (r: Option<(string, string)>)
    ensures r.None? <==> c !in s
    ensures r.Some? ==> c !in r.value.0 && s == r.value.0 + [c] + r.value.1
  {
    if s == [] then None
    else if s[0] == c then Some(([], s[1..]))
    else match SplitAtFirst(s[1..], c)
      case None => None
      case Some((a, b)) => Some(([s[0]] + a, b))
  }

  /** Reads the bucket and the key back out of a public URL. */
  function ParsePublicUrl(url: string): Option<(string, string)>
  {
    if |url| < |PublicUrlPrefix| || url[..|PublicUrlPrefix|] != PublicUrlPrefix then None
    else SplitAtFirst(url[|PublicUrlPrefix|..], '/')
  }

  lemma {:induction false} SplitAtFirstOf(a: string, c: char, b: string)
    requires c !in a
    ensures SplitAtFirst(a + [c] + b, c) == Some((a, b))
  {
    if a != [] {
      assert (a + [c] + b)[1..] == a[1..] + [c] + b;
      SplitAtFirstOf(a[1..], c, b);
      assert [a[0]] + a[1..] == a;
    }
  }

  /** Bucket names hold no '/', so the bucket and the key can be read back from the URL. */
  lemma PublicUrlRoundTrip(bucket: string, key: string)
    requires '/' !in bucket
    ensures ParsePublicUrl(PublicUrl(bucket, key)) == Some((bucket, key))
  {
    var url := PublicUrl(bucket, key);
    assert url[..|PublicUrlPrefix|] == PublicUrlPrefix;
    assert url[|PublicUrlPrefix|..] == bucket + ['/'] + key;
    SplitAtFirstOf(bucket, '/', key);
  }

  // ---------------------------------------------------------------------------------------------
  // The client and its call log
  // ---------------------------------------------------------------------------------------------

  /** One entry of the multipart-upload commit list. */
  datatype CompletedPart = CompletedPart(partNumber: nat, etag: string)

  /** A call made to the S3 client, with the store's answer. */
  datatype Call =
    | CreateUpload(bucket: string, key: string, issued: Option<string>)
    | PartUpload(bucket: string, key: string, partNumber: nat, uploadId: string,
                 body: seq<byte>, etag: Option<string>)
    | CompleteUpload(bucket: string, key: string, uploadId: string, parts: seq<CompletedPart>,
                     succeeded: bool)
    | AbortUpload(bucket: string, key: string, uploadId: string, succeeded: bool)
    | FileUpload(fileName: string, bucket: string, key: string, succeeded: bool)
    | FileobjUpload(bucket: string, key: string, contentType: string, body: seq<byte>,
                    succeeded: bool)

  /** The S3 client. Every operation may fail; a failure is recorded in the log and reported
      to the caller as a missing reply or a false flag. */
  class S3Client {
    ghost var log: seq<Call>

    constructor ()
      ensures log == []
    {
      log := [];
    }

    /** CreateMultipartUpload: issues an upload id, or None when the call raised. */
    method CreateMultipartUpload(bucket: string, key: string) returns (issued: Option<string>)
      modifies this
      ensures log == old(log) + [CreateUpload(bucket, key, issued)]
    {
      issued := *;
      log := log + [CreateUpload(bucket, key, issued)];
    }

    /** UploadPart: returns the part's ETag, or None when the call raised. */
    method UploadPart(bucket: string, key: string, partNumber: nat, uploadId: string,
                      body: seq<byte>) returns (etag: Option<string>)
      modifies this
      ensures log == old(log) + [PartUpload(bucket, key, partNumber, uploadId, body, etag)]
    {
      etag := *;
      log := log + [PartUpload(bucket, key, partNumber, uploadId, body, etag)];
    }

    /** CompleteMultipartUpload: false when the call raised. */
    method CompleteMultipartUpload(bucket: string, key: string, uploadId: string,
                                   parts: seq<CompletedPart>) returns (succeeded: bool)
      modifies this
      ensures log == old(log) + [CompleteUpload(bucket, key, uploadId, parts, succeeded)]
    {
      succeeded := *;
      log := log + [CompleteUpload(bucket, key, uploadId, parts, succeeded)];
    }

    /** AbortMultipartUpload: false when the call raised. */
    method AbortMultipartUpload(bucket: string, key: string, uploadId: string)
      returns (succeeded: bool)
      modifies this
      ensures log == old(log) + [AbortUpload(bucket, key, uploadId, succeeded)]
    {
      succeeded := *;
      log := log + [AbortUpload(bucket, key, uploadId, succeeded)];
    }

    /** The managed single-request upload of a local file: false when the call raised. */
    method UploadFile(fileName: string, bucket: string, key: string) returns (succeeded: bool)
      modifies this
      ensures log == old(log) + [FileUpload(fileName, bucket, key, succeeded)]
    {
      succeeded := *;
      log := log + [FileUpload(fileName, bucket, key, succeeded)];
    }

    /** The managed upload of an in-memory body: false when the call raised. */
    method UploadFileobj(bucket: string, key: string, contentType: string, body: seq<byte>)
      returns (succeeded: bool)
      modifies this
      ensures log == old(log) + [FileobjUpload(bucket, key, contentType, body, succeeded)]
    {
      succeeded := *;
      log := log + [FileobjUpload(bucket, key, contentType, body, succeeded)];
    }
  }

  // ---------------------------------------------------------------------------------------------
  // The upload protocol as a function of the store's answers
  // ---------------------------------------------------------------------------------------------

  /** The store's answers during one large-file upload: the upload id (None: creation raised),
      one answer per planned part (None: that upload raised; answers after the first failure
      are never asked for), and whether the commit and the abort went through. */
  datatype Replies = Replies(uploadId: Option<string>, etags: seq<Option<string>>,
                             completeSucceeded: bool, abortSucceeded: bool)

  /** The bodies the upload sends, one per part: the file's planned chunks, or None when the
      file's size cannot be read. */
  function Plan(disk: Option<seq<byte>>): Option<seq<seq<byte>>>
  {
    if disk.None? then None else Some(Chunks(disk.value))
  }

  /** One answer per planned part whenever the plan is known. */
  predicate RepliesFit(plan: Option<seq<seq<byte>>>, replies: Replies)
  {
    plan.Some? ==> |replies.etags| == |plan.value|
  }

  /** Index of the first failed part upload, or the number of answers when none failed. */
  function FirstFailure(etags: seq<Option<string>>): (k: nat)
    ensures k <= |etags|
    ensures forall j :: 0 <= j < k ==> etags[j].Some?
    ensures k < |etags| ==> etags[k].None?
  {
    if etags == [] || etags[0].None? then 0 else 1 + FirstFailure(etags[1..])
  }

  /** The answers to the part uploads actually made: up to and including the first failure. */
  function Asked(etags: seq<Option<string>>): (asked: seq<Option<string>>)
    ensures |asked| == if FirstFailure(etags) < |etags| then FirstFailure(etags) + 1 else |etags|
  {
    if FirstFailure(etags) < |etags| then etags[..FirstFailure(etags) + 1] else etags
  }

  /** The part uploads made for parts 1..|etags|, each answered with the given ETag. */
  function PartCalls(bodies: seq<seq<byte>>, bucket: string, key: string, uploadId: string,
                     etags: seq<Option<string>>): (calls: seq<Call>)
    requires |etags| <= |bodies|
    ensures |calls| == |etags|
  {
    seq(|etags|, j requires 0 <= j < |etags| =>
      PartUpload(bucket, key, j + 1, uploadId, bodies[j], etags[j]))
  }

  /** The commit list: part numbers 1..|etags| with the ETags the store returned. */
  function CompletedParts(etags: seq<Option<string>>): seq<CompletedPart>
    requires forall j :: 0 <= j < |etags| ==> etags[j].Some?
  {
    seq(|etags|, j requires 0 <= j < |etags| => CompletedPart(j + 1, etags[j].value))
  }

  /** The calls that close an upload whose part uploads were answered with `replies.etags`:
      the abort after a failed part; otherwise the commit, followed by the abort when the
      commit fails. */
  function ClosingCalls(bucket: string, key: string, uploadId: string, replies: Replies)
    : seq<Call>
  {
    var abort := AbortUpload(bucket, key, uploadId, replies.abortSucceeded);
    if FirstFailure(replies.etags) < |replies.etags| then [abort]
    else
      var complete := CompleteUpload(bucket, key, uploadId, CompletedParts(replies.etags),
                                     replies.completeSucceeded);
      if replies.completeSucceeded then [complete] else [complete, abort]
  }

  lemma ClosingCallsSendNothing(bucket: string, key: string, uploadId: string, replies: Replies)
    ensures forall j :: 0 <= j < |ClosingCalls(bucket, key, uploadId, replies)| ==>
              !ClosingCalls(bucket, key, uploadId, replies)[j].PartUpload?
  {
  }

  /** What the upload returns once the upload id and the file are known: true after a
      successful commit; otherwise false after a successful abort, and an escaping exception
      when the abort fails too. */
  function ClosingResult(replies: Replies): Outcome<bool>
  {
    if FirstFailure(replies.etags) == |replies.etags| && replies.completeSucceeded then
      Returned(true)
    else if replies.abortSucceeded then Returned(false)
    else Raised
  }

  /** The large-file upload of `plan` to `key`, given the store's answers. The upload is created
      before the file's size is read; every later failure aborts the upload with the same id. */
  function UploadRun(plan: Option<seq<seq<byte>>>, bucket: string, key: string,
                     replies: Replies): Run<Call, bool>
    requires RepliesFit(plan, replies)
  {
    var create := CreateUpload(bucket, key, replies.uploadId);
    if replies.uploadId.None? || plan.None? then Run([create], Raised)
    else
      var uploadId := replies.uploadId.value;
      var uploads := [create] + PartCalls(plan.value, bucket, key, uploadId, Asked(replies.etags));
      Run(uploads + ClosingCalls(bucket, key, uploadId, replies), ClosingResult(replies))
  }

  // ---------------------------------------------------------------------------------------------
  // What every run of the upload guarantees, whatever the store answers
  // ---------------------------------------------------------------------------------------------

  /** The upload is created first, exactly once, and every later call targets the same bucket,
      key and upload id. */
  lemma CreateComesFirst(plan: Option<seq<seq<byte>>>, bucket: string, key: string,
                         replies: Replies)
    requires RepliesFit(plan, replies)
    ensures
      var t := UploadRun(plan, bucket, key, replies).requests;
      && |t| >= 1
      && t[0] == CreateUpload(bucket, key, replies.uploadId)
      && forall j :: 1 <= j < |t| ==>
           && replies.uploadId.Some?
           && (t[j].PartUpload? || t[j].CompleteUpload? || t[j].AbortUpload?)
           && t[j].bucket == bucket && t[j].key == key
           && t[j].uploadId == replies.uploadId.value
  {
  }

  /** The j-th call after the creation uploads part number j with the j-th planned body. */
  lemma PartsNumberedInOrder(plan: Option<seq<seq<byte>>>, bucket: string, key: string,
                             replies: Replies)
    requires RepliesFit(plan, replies)
    ensures
      var t := UploadRun(plan, bucket, key, replies).requests;
      forall j :: 0 <= j < |t| && t[j].PartUpload? ==>
        && plan.Some?
        && 1 <= j <= |plan.value|
        && t[j].partNumber == j
        && t[j].body == plan.value[j - 1]
  {
  }

  /** A commit happens only right after all n parts were uploaded successfully (so at most once),
      and it sends part numbers 1..n with the ETag each upload returned. */
  lemma CompleteOnlyAfterEveryPart(plan: Option<seq<seq<byte>>>, bucket: string, key: string,
                                   replies: Replies, c: nat)
    requires RepliesFit(plan, replies)
    requires c < |UploadRun(plan, bucket, key, replies).requests|
    requires UploadRun(plan, bucket, key, replies).requests[c].CompleteUpload?
    ensures plan.Some? && replies.uploadId.Some?
    ensures
      var t := UploadRun(plan, bucket, key, replies).requests;
      var n := |plan.value|;
      && c == n + 1
      && t[c].uploadId == replies.uploadId.value
      && |t[c].parts| == n
      && forall j :: 0 <= j < n ==>
           && t[c].parts[j].partNumber == j + 1
           && t[j + 1] == PartUpload(bucket, key, j + 1, replies.uploadId.value, plan.value[j],
                                     Some(t[c].parts[j].etag))
  {
    if FirstFailure(replies.etags) < |replies.etags| {
      assert false;
    }
  }

  /** A failed part upload or a failed commit is followed by exactly one more call: the abort of
      the same upload. The run then returns false, or raises when the abort fails too. */
  lemma AbortFollowsEveryFailure(plan: Option<seq<seq<byte>>>, bucket: string, key: string,
                                 replies: Replies, f: nat)
    requires RepliesFit(plan, replies)
    requires
      var t := UploadRun(plan, bucket, key, replies).requests;
      f < |t| && ((t[f].PartUpload? && t[f].etag.None?) || (t[f].CompleteUpload? && !t[f].succeeded))
    ensures replies.uploadId.Some?
    ensures
      var run := UploadRun(plan, bucket, key, replies);
      && |run.requests| == f + 2
      && run.requests[f + 1] == AbortUpload(bucket, key, replies.uploadId.value, replies.abortSucceeded)
      && run.result == (if replies.abortSucceeded then Returned(false) else Raised)
  {
    var t := UploadRun(plan, bucket, key, replies).requests;
    if t[f].PartUpload? {
      PartsNumberedInOrder(plan, bucket, key, replies);
      if f - 1 < FirstFailure(replies.etags) {
        assert false;
      }
    }
  }

  /** The run returns true exactly when its last call is a successful commit, and false exactly
      when its last call is a successful abort. */
  lemma ResultReflectsLastCall(plan: Option<seq<seq<byte>>>, bucket: string, key: string,
                               replies: Replies)
    requires RepliesFit(plan, replies)
    ensures
      var run := UploadRun(plan, bucket, key, replies);
      && |run.requests| >= 1
      && (run.result == Returned(true) <==>
            run.requests[|run.requests| - 1].CompleteUpload? && run.requests[|run.requests| - 1].succeeded)
      && (run.result == Returned(false) <==>
            run.requests[|run.requests| - 1].AbortUpload? && run.requests[|run.requests| - 1].succeeded)
  {
  }

  /** Once the file's size is known, the opened upload is either committed or aborted. It ends
      with a successful commit exactly when every part upload and the commit went through, and
      an abort is only ever the last call, made right after a failed part upload or commit. */
  lemma OpenedUploadIsClosed(plan: Option<seq<seq<byte>>>, bucket: string, key: string,
                             replies: Replies)
    requires RepliesFit(plan, replies) && plan.Some? && replies.uploadId.Some?
    ensures
      var t := UploadRun(plan, bucket, key, replies).requests;
      var last := t[|t| - 1];
      && |t| >= 2
      && ((last.CompleteUpload? && last.succeeded) || last.AbortUpload?)
      && ((last.CompleteUpload? && last.succeeded)
          <==> (FirstFailure(replies.etags) == |replies.etags| && replies.completeSucceeded))
      && forall j :: 0 <= j < |t| && t[j].AbortUpload? ==>
           && j == |t| - 1
           && ((t[j - 1].PartUpload? && t[j - 1].etag.None?)
               || (t[j - 1].CompleteUpload? && !t[j - 1].succeeded))
  {
  }

  /** Reading the file's size happens after the creation and outside the try: when it fails the
      exception escapes and the created upload is never aborted. */
  lemma SizeFailureLeavesUploadOpen(bucket: string, key: string, replies: Replies)
    ensures UploadRun(None, bucket, key, replies)
            == Run([CreateUpload(bucket, key, replies.uploadId)], Raised)
  {
  }

  /** The bytes sent in part uploads, in call order. */
  function UploadedBytes(calls: seq<Call>): seq<byte>
  {
    if calls == [] then []
    else
      var last := calls[|calls| - 1];
      UploadedBytes(calls[..|calls| - 1]) + (if last.PartUpload? then last.body else [])
  }

  lemma {:induction false} UploadedBytesAppend(a: seq<Call>, b: seq<Call>)
    ensures UploadedBytes(a + b) == UploadedBytes(a) + UploadedBytes(b)
  {
    if b != [] {
      var init, last := b[..|b| - 1], b[|b| - 1];
      var more := if last.PartUpload? then last.body else [];
      UploadedBytesAppend(a, init);
      assert (a + b)[..|a + b| - 1] == a + init;
      assert (a + b)[|a + b| - 1] == last;
      calc {
        UploadedBytes(a + b);
        UploadedBytes(a + init) + more;
        UploadedBytes(a) + UploadedBytes(init) + more;
        UploadedBytes(a) + (UploadedBytes(init) + more);
        UploadedBytes(a) + UploadedBytes(b);
      }
    } else {
      assert a + b == a;
    }
  }

  lemma {:induction false} UploadedBytesNone(calls: seq<Call>)
    requires forall j :: 0 <= j < |calls| ==> !calls[j].PartUpload?
    ensures UploadedBytes(calls) == []
  {
    if calls != [] {
      UploadedBytesNone(calls[..|calls| - 1]);
    }
  }

  lemma {:induction false} UploadedBytesOfParts(bodies: seq<seq<byte>>, bucket: string,
                                                key: string, uploadId: string,
                                                etags: seq<Option<string>>)
    requires |etags| <= |bodies|
    ensures UploadedBytes(PartCalls(bodies, bucket, key, uploadId, etags))
            == Concat(bodies[..|etags|])
  {
    if etags != [] {
      var k := |etags| - 1;
      UploadedBytesOfParts(bodies, bucket, key, uploadId, etags[..k]);
      assert PartCalls(bodies, bucket, key, uploadId, etags)[..k]
          == PartCalls(bodies, bucket, key, uploadId, etags[..k]);
      assert bodies[..|etags|][..k] == bodies[..k];
    }
  }

  /** Number of planned bodies a run sends: none when creation fails, else one per part upload made. */
  function PartsSent(replies: Replies): nat
  {
    if replies.uploadId.None? then 0 else |Asked(replies.etags)|
  }

  /** A run sends the first PartsSent bodies, in order, and all of them when it returns true. */
  lemma UploadedBytesOfRun(bodies: seq<seq<byte>>, bucket: string, key: string, replies: Replies)
    requires RepliesFit(Some(bodies), replies)
    ensures PartsSent(replies) <= |bodies|
    ensures UploadedBytes(UploadRun(Some(bodies), bucket, key, replies).requests)
            == Concat(bodies[..PartsSent(replies)])
    ensures UploadRun(Some(bodies), bucket, key, replies).result == Returned(true)
            ==> PartsSent(replies) == |bodies|
  {
    var run := UploadRun(Some(bodies), bucket, key, replies);
    if replies.uploadId.None? {
      UploadedBytesNone(run.requests);
    } else {
      var uploadId := replies.uploadId.value;
      var create := CreateUpload(bucket, key, replies.uploadId);
      var sent := Asked(replies.etags);
      var parts := PartCalls(bodies, bucket, key, uploadId, sent);
      var closing := ClosingCalls(bucket, key, uploadId, replies);
      ClosingCallsSendNothing(bucket, key, uploadId, replies);
      UploadedBytesNone([create]);
      UploadedBytesNone(closing);
      UploadedBytesAppend([create], parts);
      UploadedBytesAppend([create] + parts, closing);
      UploadedBytesOfParts(bodies, bucket, key, uploadId, sent);
    }
  }

  /** The bytes sent are always a prefix of the file, and a run that returns true has sent every
      byte of the file exactly once, in order. */
  lemma UploadedBytesCoverFile(file: seq<byte>, bucket: string, key: string, replies: Replies)
    requires RepliesFit(Plan(Some(file)), replies)
    ensures
      var run := UploadRun(Plan(Some(file)), bucket, key, replies);
      && UploadedBytes(run.requests) <= file
      && (run.result == Returned(true) ==> UploadedBytes(run.requests) == file)
  {
    var bodies := Chunks(file);
    assert Plan(Some(file)) == Some(bodies);
    UploadedBytesOfRun(bodies, bucket, key, replies);
    var k := PartsSent(replies);
    ChunkPrefixReassembles(file, k);
    if k == |bodies| {
      ChunksReassemble(file);
      assert bodies[..k] == bodies;
    }
  }

  // ---------------------------------------------------------------------------------------------
  // The driver
  // ---------------------------------------------------------------------------------------------

  /** The large-file upload: create the upload, read the size, upload part 1..n in order while
      collecting the commit list, commit it once, and abort on any failure inside the try. */
  method UploadLargeFile(client: S3Client, disk: Option<seq<byte>>, filePath: string,
                         bucket: string, objectName: Option<string>)
    returns (result: Outcome<bool>, ghost replies: Replies)
    modifies client
    ensures RepliesFit(Plan(disk), replies)
    ensures client.log == old(client.log)
                          + UploadRun(Plan(disk), bucket, ObjectKey(filePath, objectName), replies).requests
    ensures result == UploadRun(Plan(disk), bucket, ObjectKey(filePath, objectName), replies).result
  {
    var key := ObjectKey(filePath, objectName);
    var mpu := client.CreateMultipartUpload(bucket, key);
    if mpu.None? {
      // the creation raised; nothing else runs
      result := Raised;
      replies := NotCreatedRun(Plan(disk), bucket, key);
      return;
    }
    var uploadId := mpu.value;
    if disk.None? {
      // reading the size raised, outside the try: the upload is never aborted
      result, replies := Raised, Replies(mpu, [], false, false);
      SizeFailureLeavesUploadOpen(bucket, key, replies);
      return;
    }
    var file := disk.value;
    ghost var bodies := Chunks(file);
    var parts, failed, etags := UploadParts(client, file, bucket, key, uploadId);
    ghost var created := old(client.log) + [CreateUpload(bucket, key, mpu)];
    ghost var sent := PartCalls(bodies, bucket, key, uploadId, etags);
    var completed, aborted;
    ghost var closing;
    result, completed, aborted, closing := CloseUpload(client, bucket, key, uploadId, parts, failed);
    replies := ClosedRun(file, bucket, key, uploadId, etags, parts, failed, completed, aborted,
                         closing);
    assert Plan(disk) == Some(bodies);
  }

  /** The end of the try and its except branch: commit the parts unless a part failed, and abort
      when a part or the commit failed. An abort that fails too lets its exception escape. */
  method CloseUpload(client: S3Client, bucket: string, key: string, uploadId: string,
                     parts: seq<CompletedPart>, failed: bool)
    returns (result: Outcome<bool>, completed: bool, aborted: bool, ghost closing: seq<Call>)
    modifies client
    ensures failed ==> !completed
    ensures completed ==> !aborted
    ensures closing
            == (if failed then [] else [CompleteUpload(bucket, key, uploadId, parts, completed)])
               + (if completed then [] else [AbortUpload(bucket, key, uploadId, aborted)])
    ensures client.log == old(client.log) + closing
    ensures result == if completed then Returned(true) else if aborted then Returned(false) else Raised
  {
    closing := [];
    completed := false;
    if !failed {
      completed := client.CompleteMultipartUpload(bucket, key, uploadId, parts);
      closing := closing + [CompleteUpload(bucket, key, uploadId, parts, completed)];
    }
    aborted := false;
    if !completed {
      // the except branch
      aborted := client.AbortMultipartUpload(bucket, key, uploadId);
      closing := closing + [AbortUpload(bucket, key, uploadId, aborted)];
    }
    result := if completed then Returned(true) else if aborted then Returned(false) else Raised;
  }

  /** The answers behind a run whose upload was never created. */
  lemma NotCreatedRun(plan: Option<seq<seq<byte>>>, bucket: string, key: string)
    returns (replies: Replies)
    ensures RepliesFit(plan, replies)
    ensures UploadRun(plan, bucket, key, replies) == Run([CreateUpload(bucket, key, None)], Raised)
  {
    var unasked: seq<Option<string>> := if plan.Some? then seq(|plan.value|, _ => None) else [];
    replies := Replies(None, unasked, false, false);
  }

  /** The answers behind a run whose part loop ended with `etags`, and the run they give. */
  lemma ClosedRun(file: seq<byte>, bucket: string, key: string, uploadId: string,
                  etags: seq<Option<string>>, parts: seq<CompletedPart>,
                  failed: bool, completed: bool, aborted: bool, closing: seq<Call>)
    returns (replies: Replies)
    requires |etags| <= ChunkCount(|file|)
    requires forall j :: 0 <= j < |etags| - 1 ==> etags[j].Some?
    requires failed <==> |etags| > 0 && etags[|etags| - 1].None?
    requires !failed ==> |etags| == ChunkCount(|file|) && parts == CompletedParts(etags)
    requires failed ==> !completed
    requires closing
             == (if failed then [] else [CompleteUpload(bucket, key, uploadId, parts, completed)])
                + (if completed then [] else [AbortUpload(bucket, key, uploadId, aborted)])
    ensures RepliesFit(Some(Chunks(file)), replies)
    ensures UploadRun(Some(Chunks(file)), bucket, key, replies).requests
            == [CreateUpload(bucket, key, Some(uploadId))]
               + PartCalls(Chunks(file), bucket, key, uploadId, etags) + closing
    ensures UploadRun(Some(Chunks(file)), bucket, key, replies).result
            == if completed then Returned(true) else if aborted then Returned(false) else Raised
  {
    var bodies := Chunks(file);
    if failed {
      replies := Replies(Some(uploadId), etags + seq(|bodies| - |etags|, _ => None), false, aborted);
      RunWithFailedPart(bodies, bucket, key, uploadId, etags, replies.etags, aborted);
    } else {
      replies := Replies(Some(uploadId), etags, completed, aborted);
      RunWithAllParts(bodies, bucket, key, uploadId, etags, completed, aborted);
    }
  }

  /** The part loop: uploads part 1, 2, ... with the planned bodies and collects the commit list,
      stopping at the first upload that raises (`failed`). `etags` are the answers received. */
  method UploadParts(client: S3Client, file: seq<byte>, bucket: string, key: string,
                     uploadId: string)
    returns (parts: seq<CompletedPart>, failed: bool, ghost etags: seq<Option<string>>)
    modifies client
    ensures |etags| <= ChunkCount(|file|)
    ensures forall j :: 0 <= j < |etags| - 1 ==> etags[j].Some?
    ensures failed <==> |etags| > 0 && etags[|etags| - 1].None?
    ensures !failed ==> |etags| == ChunkCount(|file|) && parts == CompletedParts(etags)
    ensures client.log == old(client.log) + PartCalls(Chunks(file), bucket, key, uploadId, etags)
  {
    var fileSize := |file|;
    var chunkCount := fileSize / ChunkSize + 1;
    ghost var bodies := Chunks(file);
    assert |bodies| == chunkCount;
    parts, failed, etags := [], false, [];
    var i := 0;
    while i < chunkCount
      invariant 0 <= i <= chunkCount && !failed
      invariant |etags| == i && forall j :: 0 <= j < i ==> etags[j].Some?
      invariant parts == CompletedParts(etags)
      invariant client.log == old(client.log) + PartCalls(bodies, bucket, key, uploadId, etags)
    {
      var data := ReadAt(file, ChunkSize * i, Min(ChunkSize, fileSize - ChunkSize * i));
      assert data == bodies[i];
      var etag := client.UploadPart(bucket, key, i + 1, uploadId, data);
      assert PartCalls(bodies, bucket, key, uploadId, etags + [etag])
          == PartCalls(bodies, bucket, key, uploadId, etags)
             + [PartUpload(bucket, key, i + 1, uploadId, data, etag)];
      etags := etags + [etag];
      if etag.None? {
        // the part upload raised: the caller aborts
        failed := true;
        return;
      }
      parts := parts + [CompletedPart(i + 1, etag.value)];
      i := i + 1;
    }
  }

  /** The run when every part upload succeeded. */
  lemma RunWithAllParts(bodies: seq<seq<byte>>, bucket: string, key: string, uploadId: string,
                        etags: seq<Option<string>>, completeSucceeded: bool,
                        abortSucceeded: bool)
    requires |etags| == |bodies| && forall j :: 0 <= j < |etags| ==> etags[j].Some?
    ensures
      var replies := Replies(Some(uploadId), etags, completeSucceeded, abortSucceeded);
      var committed := [CreateUpload(bucket, key, Some(uploadId))]
        + PartCalls(bodies, bucket, key, uploadId, etags)
        + [CompleteUpload(bucket, key, uploadId, CompletedParts(etags), completeSucceeded)];
      UploadRun(Some(bodies), bucket, key, replies)
      == if completeSucceeded then Run(committed, Returned(true))
         else Run(committed + [AbortUpload(bucket, key, uploadId, abortSucceeded)],
                  if abortSucceeded then Returned(false) else Raised)
  {
    FirstFailureAllSucceeded(etags);
  }

  /** The run when the last of the answered part uploads is the first to fail. */
  lemma RunWithFailedPart(bodies: seq<seq<byte>>, bucket: string, key: string, uploadId: string,
                          answered: seq<Option<string>>, etags: seq<Option<string>>,
                          abortSucceeded: bool)
    requires |answered| > 0 && answered[|answered| - 1].None?
    requires forall j :: 0 <= j < |answered| - 1 ==> answered[j].Some?
    requires |etags| == |bodies| && |answered| <= |etags|
    requires etags[..|answered|] == answered
    ensures
      var replies := Replies(Some(uploadId), etags, false, abortSucceeded);
      UploadRun(Some(bodies), bucket, key, replies)
      == Run([CreateUpload(bucket, key, Some(uploadId))]
               + PartCalls(bodies, bucket, key, uploadId, answered)
               + [AbortUpload(bucket, key, uploadId, abortSucceeded)],
             if abortSucceeded then Returned(false) else Raised)
  {
    FirstFailureAfterSuccesses(answered[..|answered| - 1], etags);
  }

  lemma FirstFailureAfterSuccesses(done: seq<Option<string>>, etags: seq<Option<string>>)
    requires forall j :: 0 <= j < |done| ==> done[j].Some?
    requires |done| < |etags| && etags[..|done|] == done && etags[|done|].None?
    ensures FirstFailure(etags) == |done|
  {
    if FirstFailure(etags) < |done| {
      assert false;
    }
  }

  lemma FirstFailureAllSucceeded(etags: seq<Option<string>>)
    requires forall j :: 0 <= j < |etags| ==> etags[j].Some?
    ensures FirstFailure(etags) == |etags|
  {
  }

  /** The upload of a small file in one managed request, keyed by the file's basename. */
  method UploadFile(client: S3Client, fileName: string, bucket: string) returns (ok: bool)
    modifies client
    ensures client.log == old(client.log) + [FileUpload(fileName, bucket, Basename(fileName), ok)]
  {
    var objectName := Basename(fileName);
    ok := client.UploadFile(fileName, bucket, objectName);
  }

  /** Uploads downloaded content under the given file name and returns its public URL; a failed
      upload raises. The download itself and the optional local copy are not modelled. */
  method DownloadFileAndUploadToS3(client: S3Client, bucket: string, content: seq<byte>,
                                   fileName: string) returns (url: Outcome<string>)
    modifies client
    ensures client.log == old(client.log)
                          + [FileobjUpload(bucket, fileName, "image/jpg", content, url.Returned?)]
    ensures url.Returned? ==> url.value == PublicUrl(bucket, fileName)
  {
    var ok := client.UploadFileobj(bucket, fileName, "image/jpg", content);
    if ok {
      url := Returned(PublicUrl(bucket, fileName));
    } else {
      url := Raised;
    }
  }
}
