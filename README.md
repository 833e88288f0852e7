# AWS-BTU S3 helpers: a Dafny model

This project models the parts of the AWS-BTU command-line helpers that hold real logic:

- **The multipart large-file upload** (`upload_large_file`, object/crud.py), in module `Multipart`.
  - It creates a multipart upload and reads the file size. It plans `size div 5 MiB + 1` parts.
  - It uploads each planned byte range with part numbers 1, 2, … and collects the returned ETags into the commit list.
  - It commits that list once. It aborts the upload when a part upload or the commit raises.
  - The S3 client is the class `S3Client`. Its ghost `log` records every call with the store's answer, and any call may fail.
  - The driver `UploadLargeFile` is proved equal to a pure reference, `UploadRun`. `UploadRun` takes the planned bodies and the store's answers (`Replies`) and gives the calls made and the result. The protocol lemmas hold for *every* possible set of answers.
  - The same module models the object key: the basename of the path, shared with `upload_file`. It also models the public URL returned by `download_file_and_upload_to_s3`.
- **Bucket policies and the lifecycle rule** (bucket/policy.py), in module `Policy`.
  - Policy documents are datatypes in the IAM policy language, version "2012-10-17", not JSON text.
  - Their meaning is the predicate `Allows`, a reference semantics defined here: some Allow statement applies, no Deny statement applies, and `*` in an action or resource matches any run of characters.
  - Each document builder is paired with a lemma stating exactly which requests it allows.
  - The lifecycle rule's ID embeds the day count. The model proves that the count can be parsed back out of the ID.
- **Static-website hosting** (bucket/website.py), in module `Website`: the website endpoint URL and the configuration request.

Exceptions that escape a Python function are the `Raised` case of `Wrappers.Outcome`. The service's answers are parameters of the pure functions, or arbitrary choices of the client's methods. The requests a function sends are part of its result.

The chunk count follows the code, not a ceiling. `int(file_size / chunk_size) + 1` gives an empty file one empty part. A size that is an exact multiple of 5 MiB gets a trailing part of length zero (`Multipart.ChunkCountEdgeCases`).

`assign_policy` tests `not policy` on a JSON string. That string is never empty, so only an unknown name skips the put. `Policy.ChosenPolicy` models exactly that.

## Model

| member | source | states |
|---|---|---|
| Multipart.ChunkCount | object/crud.py:70-71 | at least one part is planned for every file size |
| Multipart.ChunkCountBounds | object/crud.py:70-71 | all parts but the last, at 5 MiB each, end at or before the end of the file; all parts together would reach past it |
| Multipart.ChunkCountEdgeCases | object/crud.py:70-71 | an empty file gets one part of length 0; a file of exactly k·5 MiB gets k+1 parts, the last of length 0 |
| Multipart.PartLengthBounds | object/crud.py:83-85 | every requested length lies in 0..5 MiB and ends within the file; every part but the last is full; the last has size mod 5 MiB bytes |
| Multipart.PartsContiguous | object/crud.py:83-85 | part i+1 starts exactly where part i ends |
| Multipart.PartsContiguousPrefix | object/crud.py:81-85 | the first k parts end where part k starts, capped at the file size |
| Multipart.PlannedLengthsPrefix | object/crud.py:81-85 | the first k requested lengths sum to min(k·5 MiB, size) |
| Multipart.PlannedLengthsSumToSize | object/crud.py:81-85 | all requested lengths sum to exactly the file size |
| Multipart.ChunkIsPlannedRange | object/crud.py:83-85 | the seek and read of part i return exactly bytes offset..offset+length of the file |
| Multipart.Chunks | object/crud.py:81-85 | one body per planned part |
| Multipart.ChunkPrefixReassembles | object/crud.py:81-85 | the first k bodies concatenate to the file's first min(k·5 MiB, size) bytes |
| Multipart.ChunksReassemble | object/crud.py:81-85 | all bodies concatenated give back the whole file: the ranges cover every byte once, in order |
| Multipart.Basename | object/crud.py:37 | the key holds no '/', is a suffix of the path, and is preceded in the path by a '/' unless it is the whole path |
| Multipart.PublicUrlRoundTrip | object/crud.py:30-31 | bucket and key can be read back from the returned public URL when the bucket name has no '/' |
| Multipart.S3Client.CreateMultipartUpload | object/crud.py:66 | appends the create call with the issued upload id, or none when it raised |
| Multipart.S3Client.UploadPart | object/crud.py:87-93 | appends the part upload with its number, upload id, body and returned ETag, or none when it raised |
| Multipart.S3Client.CompleteMultipartUpload | object/crud.py:102-107 | appends the commit with its part list and whether it went through |
| Multipart.S3Client.AbortMultipartUpload | object/crud.py:113-117 | appends the abort and whether it went through |
| Multipart.S3Client.UploadFile | object/crud.py:40 | appends the managed file upload and whether it went through |
| Multipart.S3Client.UploadFileobj | object/crud.py:21-24 | appends the in-memory upload with its content type and body |
| Multipart.ClosingCallsSendNothing | object/crud.py:102-117 | the commit and the abort carry no part body |
| Multipart.CreateComesFirst | object/crud.py:66-117 | the create is the first call, made once; every later call is a part upload, commit or abort with the same bucket, key and upload id, and only follows a successful create |
| Multipart.PartsNumberedInOrder | object/crud.py:87-93 | the j-th call after the create uploads part number j with the j-th planned body |
| Multipart.CompleteOnlyAfterEveryPart | object/crud.py:95-107 | a commit comes right after all n parts were uploaded successfully, so at most once, and its list holds part numbers 1..n in order, each with the ETag its upload returned |
| Multipart.AbortFollowsEveryFailure | object/crud.py:112-119 | a failed part upload or commit is followed by exactly one more call, the abort of the same upload; the run returns false, or raises when the abort fails too |
| Multipart.ResultReflectsLastCall | object/crud.py:102-119 | the result is true exactly when the last call is a successful commit, and false exactly when it is a successful abort |
| Multipart.OpenedUploadIsClosed | object/crud.py:75-119 | once the upload id and the size are known, the run ends with a successful commit or with an abort; it ends with a successful commit exactly when every part upload and the commit went through; an abort is only ever the last call, right after a failed part upload or a failed commit |
| Multipart.RunWithAllParts | object/crud.py:87-110 | when every part upload succeeds, the run is the create, parts 1..n, and the commit of their ETags; a successful commit returns true with no abort, a failed one is followed by the abort and returns false or raises |
| Multipart.RunWithFailedPart | object/crud.py:87-119 | when part k is the first to fail, the run is the create, parts 1..k, and the abort, with no commit; it returns false, or raises when the abort fails |
| Multipart.SizeFailureLeavesUploadOpen | object/crud.py:66-68 | when reading the size fails, the create is the only call and the exception escapes: the upload is never aborted |
| Multipart.UploadedBytesOfRun | object/crud.py:81-98 | a run sends the first bodies of the plan in order, and all of them when it returns true |
| Multipart.UploadedBytesCoverFile | object/crud.py:81-98 | the bytes sent are always a prefix of the file, and the whole file when the upload returns true |
| Multipart.UploadLargeFile | object/crud.py:58-119 | the calls made and the result are those of the reference run for the answers the store gave, under the key ObjectKey: the given object name, or else the Basename of the path |
| Multipart.UploadParts | object/crud.py:80-98 | uploads parts 1, 2, … with the planned bodies until one fails; when none fails, all parts were sent and the commit list has one entry per part with its ETag |
| Multipart.CloseUpload | object/crud.py:102-119 | commits unless a part failed; aborts when a part or the commit failed; returns true, false, or raises when the abort fails |
| Multipart.UploadFile | object/crud.py:34-44 | uploads the file under its basename and returns whether the upload went through |
| Multipart.DownloadFileAndUploadToS3 | object/crud.py:14-31 | uploads the content as image/jpg under the file name and returns the public URL of that key; a failed upload raises |
| Policy.PublicReadPolicy | bucket/policy.py:4-17 | a well-formed 2012-10-17 document with one statement, Sid PublicReadGetObject |
| Policy.PublicReadPolicyGrants | bucket/policy.py:4-17 | the document lets anyone do exactly s3:GetObject, on exactly the ARNs of the bucket's objects |
| Policy.MultiplePolicy | bucket/policy.py:20-38 | a well-formed 2012-10-17 document with one statement and no Sid |
| Policy.MultiplePolicyGrants | bucket/policy.py:20-38 | the document lets anyone do exactly the five listed actions, on exactly the bucket ARN and its objects' ARNs |
| Policy.WebsitePolicy | bucket/policy.py:107-116 | a well-formed document whose action is the one-element list [s3:GetObject] |
| Policy.WebsitePolicyIsPublicRead | bucket/policy.py:107-116 | the website document allows exactly what the public-read document allows |
| Policy.ChosenPolicy | bucket/policy.py:42-50 | a document is chosen exactly for the two known names, and it is well formed |
| Policy.AssignPolicy | bucket/policy.py:41-53 | exactly one put of the chosen document for a known name, no request otherwise; an exception escapes only from a failed put |
| Policy.AssignedPolicyAllowsPublicRead | bucket/policy.py:41-53 | whichever known name is given, the assigned document lets anyone read every object of the bucket |
| Policy.OnlyMultiplePolicyAllowsPut | bucket/policy.py:41-53 | the assigned document lets anyone write objects exactly when the name is multiple_policy |
| Policy.ReadBucketPolicy | bucket/policy.py:56-62 | one get request; the policy text is returned iff the status is 200, nothing otherwise; a failed get propagates |
| Policy.SetWebsitePolicy | bucket/policy.py:118-126 | one put of the website document; true exactly when the put did not raise; never raises |
| Policy.IntStringRoundTrip | bucket/policy.py:73 | the decimal text of any integer parses back to that integer |
| Policy.RuleId | bucket/policy.py:73 | the ID starts with "Delete objects after " and ends with " days" |
| Policy.RuleIdRoundTrip | bucket/policy.py:73 | the day count can be read back from the rule ID |
| Policy.RuleIdInjective | bucket/policy.py:73 | different day counts give different rule IDs |
| Policy.LifecycleConfig | bucket/policy.py:67-78 | exactly one rule, whose ID names the day count |
| Policy.DefaultLifecycleRule | bucket/policy.py:65-78 | with the default count the rule is 120 days, ID "Delete objects after 120 days", Enabled, empty prefix |
| Policy.LifecycleConfigExpires | bucket/policy.py:67-78 | the configuration expires an object of any key exactly when it is at least `days` old |
| Policy.SetLifecyclePolicy | bucket/policy.py:65-91 | one put of the configuration; true exactly when it answers status 200; false on any other status or an exception |
| Website.WebsiteUrl | bucket/website.py:21-25 | the URL is "http://" + bucket + ".s3-website", a separator, the region, ".amazonaws.com"; the separator is '-' exactly for us-east-1 and '.' otherwise |
| Website.WebsiteUrlFrame | bucket/website.py:21-25 | every URL starts with "http://" + bucket and ends with ".amazonaws.com" |
| Website.RegionOfWebsiteUrl | bucket/website.py:21-25 | the region can be read back from the URL of a known bucket |
| Website.WebsiteUrlInjective | bucket/website.py:21-25 | two regions give the same URL for a bucket only when they are equal |
| Website.ConfigureWebsite | bucket/website.py:3-18 | the public-access block is removed first, outside the handler, and its failure escapes with nothing else sent; otherwise one put of ErrorDocument = error_doc and IndexDocument = index_doc follows, and the result is true exactly when that put did not raise |
| Website.ConfigureDefaultWebsite | bucket/website.py:3 | with no documents named, the configuration uses index.html and error.html |

## Left out

- get_objects, upload_file_obj, upload_file_put, delete_object_from_bucket and get_lifecycle_policy: each is a single SDK call without logic of its own.
- The download in download_file_and_upload_to_s3 (urlopen) and its optional local copy: the downloaded content is a parameter and no local file is written.
- The file name built from an md5 of the local time: the name is a parameter.
- Real file I/O: the file is a byte sequence. `None` means reading its size failed. A file that fails to open inside the try, or that changes between the size read and the part reads, is not modelled.
- Replies that lack the 'UploadId' or 'ETag' field (a KeyError in the source): a reply is either present or the call raised.
- The float division `int(file_size / chunk_size)`: modelled as integer division, which agrees for sizes below 2^53 bytes.
- Printing, and the JSON serialisation of documents by json.dumps: documents are values, and key order and text form are not modelled.
- Policy.Allows: a reference semantics for the documents built here. Conditions, NotAction/NotResource, principal maps and case-insensitive action matching of the full IAM evaluation are not modelled.
- Service-side validation, such as rejecting a non-positive lifecycle day count or a malformed bucket name: the service's answer is a parameter.
- Multipart.Basename: follows POSIX paths (posixpath.basename), splitting only at '/'. On Windows, os.path also splits at `\` and after a drive letter's colon; that is not modelled.
- Exceptions that `except Exception` does not catch (BaseException subclasses such as KeyboardInterrupt): not modelled.
