# docker-push: progress-stream reader and build/push sequencing

This project models the CI helper in `docker-push/main.go`. The helper builds a container image
from a directory and a Dockerfile, then pushes it to a registry. It reads all its settings from
environment variables and hands the real work to the Docker engine client. The logic that the
program itself contributes is modelled and proved:

- **`printResponse`** (module `Progress`) reads a build or push response line by line. It echoes every
  line and keeps only the last one. It then decodes that line as an error record
  `{"error": ..., "errorDetail": {"message": ...}}`. A non-empty `error` field becomes the error,
  with exactly that text. Failing that, a scanner read error is returned. Failing both, the read
  succeeds. The loop is modelled as a fold (`Fold`) over the scanned lines. JSON decoding is a
  function parameter `unmarshal: string -> Option<ErrorLine>`: `None` means the text is not valid
  JSON, and Go then leaves the zero `ErrorLine{}` untouched. The scanner's line splitting
  (`bufio.ScanLines`) is modelled on text in module `ScanLines`.
- **The image reference** `IMAGE = registry_username + "/" + image_name + ":" + image_tag` (module
  `ImageRef`). When the user name has no `/` and the tag no `:`, it is proved to read back as exactly those
  three components. It does not depend on the registry address (`Pipeline.PushNamesBuiltImage`).
- **Sequencing** (module `Pipeline`): `main` → `buildDockerImage` → `pushToRegistry`, stopping at the
  first failure. Client creation, archiving, `ImageBuild` and `ImagePush` are abstract outcomes
  held in an `Engine` record. A run records the calls it made (with their arguments), the lines it
  echoed and how `main` ended.

In four places the code does not do what one might expect. The model follows the code:

- One might expect a push whose response ends in an error record to fail. The code discards the
  reader's verdict (`docker-push/main.go:137`), so the push succeeds whenever `ImagePush` itself
  returns no error.
- One might expect a scanner read error to fail the read whatever the lines say. In the code, a
  non-empty `error` field on the last line is checked first and wins.
- One might expect every failure to be reported by printing its message. In the code, a build or
  push failure prints `err.Error()` on the client-creation error `err`, which is nil at that point. That
  is a run-time panic (see Findings).
- Errors are returned unwrapped. There are no distinct build or push error kinds.

## Model

| member | source | states |
|---|---|---|
| Progress.Fold | docker-push/main.go:95-101 | After the scanning loop, the echoed output is the lines read so far followed by every scanned line in order, and the retained line is the last scanned line, or the previous one (initially `""`) when nothing was scanned |
| Progress.PrintResponse | docker-push/main.go:94-114 | Echoes exactly the input lines in order. If the last line's `error` field is a non-empty X, returns an error with text X. Otherwise returns the scanner's error, which is nil on a clean end of input |
| Progress.FailsIff | docker-push/main.go:103-113 | The read fails if and only if the last line carries a non-empty `error` field or the scanner reported an error |
| Progress.OnlyLastLineDecides | docker-push/main.go:98-107 | The verdict on a stream depends only on its last line and the scanner error, not on any earlier line |
| Progress.SignalNotLastIsIgnored | docker-push/main.go:98-111 | An error record followed by lines whose last has no error signal yields exactly the scanner's error, so success when there is none |
| Progress.SignalOutranksReadError | docker-push/main.go:103-111 | A non-empty `error` field X on the last line gives an error whose message is X, the same result as with no scanner error |
| Progress.EmptyStream | docker-push/main.go:94-113 | For a decoder that rejects the empty text, an empty stream echoes nothing and returns exactly the scanner's error |
| Progress.MalformedLastLine | docker-push/main.go:103-107 | A last line that is not valid JSON is not an error in itself: the result is the scanner's error |
| Progress.SignalOnFinalTextLine | docker-push/main.go:97-107 | On raw body text, after any newline-terminated text (carriage returns included), an error record written as the final line and closed by `\n` or `\r\n` is detected with its exact text, less the carriage return, because the trailing newline yields no empty token |
| Progress.SignalOnOpenFinalLine | docker-push/main.go:97-107 | The same holds for a final non-empty error record that has no newline after it, with one trailing carriage return dropped |
| ScanLines.LinesAppend | docker-push/main.go:97-99 | After newline-terminated text the scanner starts afresh: the lines of the concatenation are the lines of the first part followed by those of the second |
| ScanLines.LinesOfConsAny | docker-push/main.go:97-99 | A line closed by a newline is scanned as that line, minus one trailing carriage return, followed by the lines of what comes after |
| ScanLines.Lines | docker-push/main.go:97-98 | The scanner yields no tokens exactly when the text is empty |
| ScanLines.LinesHaveNoNewline | docker-push/main.go:97-99 | No scanned line contains a newline |
| ScanLines.LinesOfJoin | docker-push/main.go:97-100 | Scanning lines written each with a newline gives back exactly those lines, in order |
| ScanLines.JoinOfLines | docker-push/main.go:97-100 | Newline-terminated text with no carriage return directly before a newline is exactly its scanned lines, each followed by a newline |
| ScanLines.LinesOfOpenTail | docker-push/main.go:97-100 | A final line without a newline is still scanned as one more line, minus a trailing carriage return |
| ScanLines.LinesOfSnoc | docker-push/main.go:97-99 | After joined lines, one more newline-terminated line is scanned as the last line, with no empty token after it |
| ScanLines.LineCount | docker-push/main.go:97-100 | The number of scanned lines is the number of newlines, plus one for an unterminated final line |
| ImageRef.ParseReference | docker-push/main.go:40 | A reference built from a user name without `/` and a tag without `:` reads back as exactly user name, image name and tag |
| ImageRef.ReferenceOfParse | docker-push/main.go:40 | Whatever reads as a reference is the reference built from the parts it reads as |
| Pipeline.BuildDockerImage | docker-push/main.go:63-92 | Its calls are exactly the archive call, followed by the build call only if archiving succeeded. The build call carries the Dockerfile, the one tag and removal of intermediate containers. Succeeds exactly when the archive, the submission and the response read all succeed. Otherwise returns the first failure unchanged: the archiver's error, the refused build's error, or the reader's verdict. Echoes the build output when there is one, and nothing when archiving or the build call fails |
| Pipeline.PushToRegistry | docker-push/main.go:116-142 | Makes one push call for the image, with the registry address only in the credentials. Fails exactly when that call fails, with that call's error: the response's error record is ignored. Echoes the push output when there is one, and nothing when the call fails |
| Pipeline.Main | docker-push/main.go:28-61 | Creates the client first. If client creation fails, the run makes no further call, echoes nothing and prints the error's message. Once the client exists, the run either completes or panics. It completes exactly when the build succeeds and the push call succeeds. After a failed build it has echoed exactly what the build step echoed |
| Pipeline.MainTrace | docker-push/main.go:42-55 | Once the client exists, the calls are exactly: client, archive; or, when archiving succeeds, client, archive, build, followed by the push only when the build step succeeded |
| Pipeline.AttemptedCalls | docker-push/main.go:49-55 | The build is submitted exactly when client creation and archiving succeed, and the push exactly when client creation and the whole build step succeed |
| Pipeline.OnlyExpectedCalls | docker-push/main.go:42-55 | A run makes no call other than client, archive, build and push, and none of them twice |
| Pipeline.PushNamesBuiltImage | docker-push/main.go:40-55 | For every setting, the image the push names is the tag the build applies, and it does not change with the registry address, which reaches the push only as the credentials' server address |
| Pipeline.PushTargetIsBuiltReference | docker-push/main.go:40-55 | For a user name without `/` and a tag without `:`, the pushed image reads back as exactly user name, image name and tag |
| Pipeline.BuildSignalStopsRun | docker-push/main.go:49-53 | An error record ending the build output prevents the push, and the run echoes just the build output |
| Pipeline.EchoOrder | docker-push/main.go:49-55 | When client creation, archiving and reading the build output succeed and the push returns a body, the run echoes the build output and then the push output, in order |
| Pipeline.PushToRegistryChecked | docker-push/main.go:132-140 | Corrected push step: fails exactly when the push call fails, the response ends in an error record, or the scanner reports an error. The error is the refused call's error or else the reader's verdict, as in the build step |
| Pipeline.MainCorrected | docker-push/main.go:49-59 | Corrected `main`: it makes the same calls as `main`, never panics, prints the build error when the build fails, prints the push error when the push fails, and completes exactly when every step succeeds |
| Pipeline.FailedBuildPanics | docker-push/main.go:42-53 | Once the client exists, any build failure makes `main` dereference the nil `err`, where the corrected `main` prints the build error |
| Pipeline.FailedPushPanics | docker-push/main.go:55-58 | After a successful build (archive, submission and response read all succeed), a refused push makes `main` dereference the nil `err`, where the corrected `main` prints the push error |
| Pipeline.BuildSignalExample | docker-push/main.go:49-53 | A concrete run whose build output ends in the error record "denied": `main` makes the client, archive and build calls, echoes both lines and panics, while the corrected `main` prints "denied" |
| Pipeline.ArchiveFailureExample | docker-push/main.go:70-73 | With a failing archiver, `main` makes only the client and archive calls and panics, while the corrected `main` prints the archiver's message |
| Pipeline.PushSignalDropped | docker-push/main.go:132-140 | A push response ending in an error record X leaves the push step as written successful, while the checked step fails with text X |

## Left out

- Client creation, `archive.TarWithOptions`, `ImageBuild` and `ImagePush` are calls into the Docker client library. Each is an abstract success or failure (`Engine`), and the model records only the arguments passed to it.
- JSON decoding is the parameter `unmarshal`. Go's case-insensitive field matching and its partial filling on type mismatches are details of that parameter. The empty-stream property assumes only that the empty text is not valid JSON (`RejectsEmptyText`).
- The scanner's read errors, including `bufio.ErrTooLong` for a token over the buffer limit, are an input (`Stream.readError`), together with the lines delivered before them. The 64 KiB buffer limit is not modelled.
- Text is a sequence of characters rather than bytes. Only `'\n'` and `'\r'` matter to the splitting, and each is a single byte.
- The 120-second `context.WithTimeout` deadlines and `cancel` are timing. The deferred `Close` of response bodies is resource handling, including the build body that is never closed when reading it fails.
- Reading the environment is not modelled: `Env` holds the values. Printing is modelled only for the echoed stream lines and for the final message or panic. The "calling ..." and "docker-file-name:" lines are not modelled.
- The JSON marshalling and base64url encoding (section 5 of RFC 4648) of the credentials are not modelled. The `AuthConfig` record stands for the token.
- The process exit status is not modelled: `main` returns normally or panics.

## Findings

| source | as written | input that shows it | evidently intended | confidence | as-written member | corrected member |
|---|---|---|---|---|---|---|
| docker-push/main.go:50-58 | After a failed build or push, `main` prints `err.Error()`, where `err` is the nil error from the successful `client.NewClientWithOpts` call, so the program panics with a nil dereference | a build response whose last line is `{"error":"denied","errorDetail":{"message":"denied"}}` (`BuildSignalExample`) | print `buildErr.Error()` / `pushErr.Error()` | high, not executed | Pipeline.FailedBuildPanics, Pipeline.FailedPushPanics | Pipeline.MainCorrected |
| docker-push/main.go:137 | `pushToRegistry` ignores the error returned by `printResponse`, so a push the registry rejects inside the response stream is reported as success | a push response whose last line is `{"error":"denied","errorDetail":{"message":"denied"}}` | return the reader's verdict, as `buildDockerImage` does at lines 85-88 | medium, not executed | Pipeline.PushSignalDropped | Pipeline.PushToRegistryChecked |
