# S3Uploader, modelled in Dafny

This project is a model of the `S3Uploader` class of node-s3-uploader
(`lib/index.js`). The class is a thin layer over an object-storage client. It
takes configuration at construction and checks a local file against an
accepted mime-type list and a maximum size. It then uploads the file, or any
stream, under a key built from a prefix, the caller's path and an optional
extension hint. It can also delete a key. The model covers the decision logic.
Four modules hold it:

- `Js`: optional values and the JavaScript truthiness tests that the options go through.
- `Matching`: the accepted-mime-type entries. `indexOf` is a recursive search proved to find the first occurrence. The `filter` callback and the filter itself are proved against a substring specification.
- `Keys`: the `/\.\w+$/` extension test, proved equal to its regular-expression meaning. Also the final key of an upload and the content-type fallback.
- `Uploader`: the option defaulting of `init`, `checkConstraints`, the request records, and the client as a recorder of exchanges. It also holds the `S3Uploader` class with its constructor, `UploadStream`, `UploadFile` and `DeleteObject`.

Some parts are only inputs to the model. `mime.lookup`, the size that
`fs.statSync` reports and `path.join` are the fields of a `Host` value of
functions. The storage client is a `Client` object that appends each request,
with an arbitrary reply, to its `log`. A regular-expression entry is abstracted
by the predicate "finds a match in this string". The configuration fields are
`const`, because no method reassigns them after `init`.

Where the documented behaviour of the library and its code differ, the model follows the code:

- A string entry accepts a mime type when it is a substring of it (`indexOf`), not only when it is equal to it. For example `"image"` accepts `image/png`, and `""` accepts everything.
- Without an options object, `_bucket` is never assigned. The model's bucket is then `None`, and that `None` is what upload and delete requests carry. With an options object, a falsy bucket becomes `""`.
- A truthy negative `maxFileSize` is kept as given. It disables the size check in the same way that `0` does.

## Model

| member | source | states |
|---|---|---|
| `Matching.IndexFrom` | lib/index.js:63 | -1 exactly when the needle starts at no position from `from` on; otherwise the first such position |
| `Matching.IndexOf` | lib/index.js:63 | not -1 exactly when the entry is a substring of the mime type; then the first position where it starts |
| `Matching.Matches` | lib/index.js:62-66 | the filter callback accepts exactly what the entry is meant to accept: a substring for a string entry, a match for a pattern |
| `Matching.Filter` | lib/index.js:61-67 | keeps only accepting entries, keeps every accepting entry, and is empty exactly when no entry of the list accepts the mime type |
| `Matching.EmptyTextAcceptsEverything` | lib/index.js:63 | an empty string entry matches every mime type |
| `Matching.LongerTextNeverMatches` | lib/index.js:63 | a string entry longer than the mime type never matches |
| `Matching.FirstCharAbsentNeverMatches` | lib/index.js:63 | an entry whose first character is at no position where it fits never matches |
| `Keys.TrailingWordChars` | lib/index.js:121 | the length of the maximal run of `[A-Za-z0-9_]` characters ending the path |
| `Keys.HasExtensionIsRegexMatch` | lib/index.js:121 | the run-based test holds exactly when `/\.\w+$/` matches: a dot followed by one or more word characters at the end |
| `Keys.FinalKey` | lib/index.js:116-123 | `join(prefix, path) + "." + ext` when a non-empty hint is given and the caller's path has no extension; `join(prefix, path)` otherwise |
| `Keys.AppendedHintIsAnExtension` | lib/index.js:121-123 | with a word-character hint, the extended key itself has an extension, so the hint would not be appended twice |
| `Keys.ContentTypeOf` | lib/index.js:132 | the declared type when truthy, `application/octet-stream` otherwise; never empty |
| `Keys.KeyExamples` | lib/index.js:116-123 | `uploads/` + `photo` + hint `jpg` gives `uploads/photo.jpg`; `photo.png` keeps its name; `photo.` and `photo.tar-gz` receive the hint |
| `Uploader.Configure` | lib/index.js:26-54 | with an options object, each falsy option yields its default (`''`, `''`, `[]`, `0`) and each truthy one is kept; without one, prefix `''`, list `[]`, maximum `0`, bucket unset |
| `Uploader.CheckConstraints` | lib/index.js:57-81 | mime violation exactly when the list is non-empty and no entry accepts; size violation exactly when the mime test passes, the maximum is positive and the size strictly exceeds it; no violation otherwise |
| `Uploader.EmptyListAcceptsAnyMime` | lib/index.js:58 | an empty list never yields a mime violation, and the verdict then does not depend on the mime type |
| `Uploader.NoMaximumIgnoresSize` | lib/index.js:74-75 | a maximum of zero or less never yields a size violation, and the verdict then does not depend on the size |
| `Uploader.MimeViolationIgnoresSize` | lib/index.js:58-80 | a mime violation is returned whatever the size: the size is never needed once the mime test fails |
| `Uploader.SizeBoundIsStrict` | lib/index.js:77 | a size equal to the maximum passes; one byte more is a size violation |
| `Uploader.ConstraintExamples` | lib/index.js:57-81 | `image/png` passes `["image/png"]` and `["image"]`; `text/plain` fails `["image/*"]`; 2000 bytes fail a 1000 maximum and 500 pass; both failing gives the mime violation |
| `Uploader.Message` | lib/index.js:21-78 | the messages thrown at line 21 and returned at lines 70 and 78, each starting `S3Uploader: `; no message of the uploader's own for a client error, which lines 93 and 139 pass on unchanged |
| `Uploader.MessagesDistinct` | lib/index.js:21-78 | the three messages of lines 21, 70 and 78 are pairwise distinct |
| `Uploader.Settle` | lib/index.js:91-97 | the promise resolves with the client's data, or rejects with the client's error unchanged |
| `Uploader.Client.Upload` | lib/index.js:126-137 | the client records one upload exchange with the given parameters and body |
| `Uploader.Client.DeleteObject` | lib/index.js:88-91 | the client records one delete exchange with the given bucket and key |
| `Uploader.S3Uploader.constructor` | lib/index.js:17-55 | the instance holds the client as given and exactly the configuration that `Configure` derives from the options |
| `Uploader.Create` | lib/index.js:20-24 | fails with the client-required error exactly when the client is null; otherwise a fresh instance holds that client and the defaulted options |
| `Uploader.S3Uploader.UploadStream` | lib/index.js:115-145 | exactly one request is appended: configured bucket, the final key, `public-read`, `gzip`, the content type or its default, and the gzipped stream; the result is the client's reply; well-formed upload logs stay well formed |
| `Uploader.S3Uploader.UploadFile` | lib/index.js:101-113 | a violation rejects with that violation and leaves the client log unchanged; otherwise one upload of the gzipped file under `join(prefix, destPath)` with no extension added, typed by the resolved mime type |
| `Uploader.S3Uploader.DeleteObject` | lib/index.js:83-99 | exactly one delete request is appended, with the configured bucket and the key exactly as given (no prefix); the result is the client's reply |
| `Uploader.SpyClientScenario` | lib/index.js:101-145 | behind a PNG-only uploader, a text file is rejected with the mime violation and leaves the spy client without requests; a hinted stream upload is sent as `uploads/photo.jpg` |

## Left out

- Gzip compression and file streams: the body is the opaque value `Gzip(stream)`. The bytes are not modelled.
- `fs.statSync`: the file size is an input. A stat that throws for a missing file is not modelled. `NoMaximumIgnoresSize` and `MimeViolationIgnoresSize` state the cases where the size cannot influence the verdict.
- Errors that `fs.createReadStream` emits on the stream are not modelled.
- `mime.lookup`: the resolved mime type is an input (`Host.lookup`).
- Regular-expression entries: the model does not capture their syntax, or a sticky expression's dependence on `lastIndex`. An entry is the predicate `hasMatchIn`.
- `path.join` normalisation (`..`, repeated separators) is abstract: `FinalKey` takes the join as a parameter.
- Option values of the wrong type are not modelled: a number as prefix, `NaN` or a fractional maximum size. Options are typed as strings, a list of entries and an integer.
- The AWS SDK is not modelled: its constructor, transport, authentication and retries. The client records each request with an arbitrary reply.
- Promise and callback plumbing: outcomes are `Result` values. Whether a rejection is synchronous or delivered through a promise is not distinguished.
- The `neon` `Class(...)` object system: the model uses a plain Dafny class.
- Matching.Filter: does not state the order of the kept entries, or how often an entry that occurs twice is kept, because `checkConstraints` only tests whether the result is empty.
