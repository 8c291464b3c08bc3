# ecs_metadata, modelled in Dafny

A model of the container-metadata client of `ecs_metadata`: the snapshot
record returned by the ECS task-metadata endpoint (version 4), the rename
table that maps its JSON keys to fields, the read-only accessors of
`ECSMetadata`, the derivation of the task id from the task ARN, and the
`init` pipeline (environment variable, then request and status check, then
JSON decoding), with the crate's error enumeration.

Files:

- `wrappers.dfy` — `Option` and `Result`.
- `errors.dfy` — module `Errors`: `ECSMetadataError` (src/error.rs) and an
  stand-in for `reqwest::Error` that records which step failed, plus the
  transport's text for a failed request and the status for a rejected one.
- `str_split.dfy` — module `StrSplit`: `str::split` with a `char` pattern and
  `Iterator::last`, the two library calls that `task_id` chains, with their
  inverse (`Join`) and an independent definition of "the text after the last
  separator" (`IsTailAfterLast`).
- `json.dfy` — module `Json`: a JSON document as the derived deserializer
  sees it.
- `metadata.dfy` — module `Metadata`: the records, the rename table,
  decoding (`DecodeMetadata`) and its inverse (`EncodeMetadata`), the
  accessors, `TaskIdOf`, and `Init`.

`Init` is a pure function of the environment lookup (`Option<string>`; a
variable that is unset or not valid Unicode is `None`) and of the transport,
given as a function `get` from URL to outcome (a transport failure, or a
status code with a body that is either unreadable as JSON or a JSON
document). Because the transport is a parameter, "no request is made" is
stated as "the result does not depend on `get`".

Two behaviours of the code worth knowing:

- `task_id` never returns `None` (`TaskIdOf`'s contract): with no `/`,
  `split('/')` yields the whole ARN as its only piece, so the task id is the
  whole ARN (`TaskIdWithoutSlash`).
- `error_for_status` fails only on client and server errors (400–599), so a
  1xx, 3xx or 600–999 status goes on to body decoding (`IsErrorStatus`,
  `Init`).

## Model

| member | source | states |
|---|---|---|
| StrSplit.Split | src/metadata.rs:66 | `split` yields at least one piece, no piece contains the separator, and there is exactly one piece iff the text has no separator |
| StrSplit.Last | src/metadata.rs:66 | `last` is `None` exactly for an empty sequence of pieces |
| StrSplit.JoinSplit | src/metadata.rs:66 | gluing the pieces of a split back with the separator gives the original text |
| StrSplit.SplitJoin | src/metadata.rs:66 | splitting a join of separator-free pieces gives back those pieces |
| StrSplit.SplitWithoutSep | src/metadata.rs:66 | a text without the separator splits into itself alone |
| StrSplit.SplitAfterPrefix | src/metadata.rs:66 | a separator-free prefix followed by the separator becomes the first piece and the rest splits on its own |
| StrSplit.TailAfterLastUnique | src/metadata.rs:64-66 | at most one text is "the text after the last separator" of a given text |
| StrSplit.LastPieceIsTail | src/metadata.rs:64-66 | the last piece of a split is a separator-free suffix that is the whole text or directly follows a separator |
| Metadata.TaskIdOf | src/metadata.rs:65-67 | the task id is always `Some`, and it contains no `/` |
| Metadata.TaskIdIsTail | src/metadata.rs:64-67 | the task id is `t` if and only if `t` is the text of the ARN after its last `/` (all of it when there is none) |
| Metadata.TaskIdWithoutSlash | src/metadata.rs:66 | an ARN without `/` is its own task id |
| Metadata.TaskIdTrailingSlash | src/metadata.rs:66 | an ARN ending in `/` has the empty task id |
| Metadata.TaskIdAfterSlash | src/metadata.rs:64-66 | for any prefix and any slash-free `s`, the task id of prefix + "/" + `s` is `s` |
| Metadata.TaskIdOfSampleArn | src/metadata.rs:64-66 | the id of `arn:aws:ecs:us-east-1:939885537497:task/production/021447970bce4bd58069f1925cd87bc0` is `021447970bce4bd58069f1925cd87bc0` |
| Metadata.DecodeExactlyCarried | src/metadata.rs:9-39 | a document decodes to a record if and only if it holds, at every key of the rename table, the value of the matching field (strings as strings, limits as integers in 0..65535) |
| Metadata.DecodeEncode | src/metadata.rs:9-39 | decoding the wire form of any record gives that record back |
| Metadata.MissingKeyRefused | src/metadata.rs:9-16 | a document missing `DockerId`, `Image`, `Labels` or `Limits` is refused: no defaults, no partial record |
| Metadata.UnknownKeyIgnored | src/metadata.rs:9-16 | adding a key outside the rename table does not change the decoding |
| Metadata.DecodeLimitsRange | src/metadata.rs:33-39 | the limits decode exactly when `CPU` and `Memory` are integers in 0..65535, and a memory limit of 0 decodes as 0 |
| Metadata.AccessorsReadWire | src/metadata.rs:60-97 | each accessor of a decoded snapshot returns the value at its wire key; `TaskDefinitionRevision` reads the `task-definition-version` label and `TaskArn` the raw ARN |
| Metadata.Init | src/metadata.rs:47-58 | `init` succeeds exactly when the variable is set, the request completes, the status is not an error and the body decodes, and then the snapshot holds exactly what the body carries |
| Metadata.InitWithoutEnv | src/metadata.rs:48-49 | without the variable the result is `EnvVarNotSet("ECS_CONTAINER_METADATA_URI_V4")`, whatever the transport would have answered |
| Metadata.InitFetchesOnlyConfiguredUrl | src/metadata.rs:51-53 | the result depends only on the outcome of fetching the configured URL |
| Metadata.InitTransportFailure | src/metadata.rs:51-52 | a transport failure yields `HttpError` carrying that failure |
| Metadata.InitErrorStatus | src/metadata.rs:51-53 | a 4xx or 5xx status yields `HttpError` for that status, and the body makes no difference |
| Metadata.InitUndecodableBody | src/metadata.rs:55 | a body that is not JSON or does not decode yields `HttpError` of the decode kind |
| Metadata.InitNeverFetchError | src/metadata.rs:47-58 | `init` never produces `FetchError` |
| Metadata.InitSuccess | src/metadata.rs:51-57 | a 2xx response whose document carries a record yields `Ok` of exactly that record |
| Metadata.InitSample | src/metadata.rs:47-97 | for a full sample response (memory limit 0), every accessor of the result reads the sample's value and the task id is `XYZ` |

## Left out

- The HTTP request itself, `async`/`await` and the inside of `reqwest::Error`: the outcome of the request is the parameter `get`, and the error payload records only the failing step, the transport's text (failed request) and the status (rejected status).
- Reading the response body: a body that cannot be read and a body that is not JSON are both `Malformed` and surface as `DecodeFailed`; reqwest reports both as an error from `json()`, the first as a body error and the second as a decode error.
- JSON text parsing (escapes, whitespace, number syntax): the model starts from a parsed document; a number serde_json reads as a float (with fraction or exponent, or `-0`) is `JReal`.
- serde's derived deserializers also accept a struct written as a JSON array of its fields in declaration order; that form is not modelled.
- A JSON object with the same key twice (which the derived deserializer refuses as a duplicate field) cannot be expressed, since objects are maps.
- `std::env::var` is the `Option<string>` parameter; a set but non-Unicode value is `None`, as the source maps both failures to the same error.
- The `Display` texts of the error enumeration: formatting only.
- `FetchError` is declared in `Errors` but the library never builds it (`InitNeverFetchError`).
- `Debug` derives and the module declarations and re-exports of src/lib.rs: no logic.
