# FLUX command-line client: a Dafny model of its decision logic

`src/cli/fluxcli.py` is a command-line client for the BFL FLUX
image-generation HTTP API. Its `FluxAPI` class has four generation operations:
`generate_image`, `inpaint`, `control_generate` and `img2img`. Each one posts a
request to a model-specific endpoint, reads the task id from the reply and
polls `/v1/get_result` until the task is ready. It then returns the sample
URL of the result. `main` runs one sub-command, fetches the image at that URL
and prints `{"format": ..., "data": <base64>}`. It exits with 0 on success and
with 1 otherwise.

This project models that logic with every HTTP reply taken as an input value:

- `values.dfy` (module `Values`): decoded JSON values (`Json`) and their Python
  truthiness. Also the exceptions the client can raise (`Error`), the
  returns-or-raises wrapper (`Result`), and the reply to one HTTP request
  (`Reply`).
- `requests.dfy` (module `Requests`): the model-name and control-type endpoint
  tables. It also covers aspect-ratio and default dimension resolution, the
  control payload built by two successive dict updates (`ControlGenerate`), and
  the integer part of img2img's sizing. Each operation yields the POST it makes
  (`Request`), or the error it raises before posting.
- `polling.dfy` (module `Polling`): the `get_task_result` loop as a method over
  a sequence of status replies (`GetTaskResult`), proved equal to a recursive
  specification (`Poll`). The lemmas about `Poll` pin down which reply decides
  the outcome. The module also covers task-id reading, sample extraction and
  the tail that all four generation methods share (`AwaitSample`).
- `cli.dfy` (module `Cli`): the content-type → image-format rule and `main`
  (`Run`). `Run` gives the exit code and the printed result for one command.

Some behaviour of the program worth knowing:

- `main` prints a document with only the fields `format` and `data`.
- `get_task_result` writes its progress lines ("Processing image...") to
  standard output, so they precede that document there.
- `FluxAPI.img2img` defaults `strength` to 0.75. The `img2img` sub-command
  defaults it to 0.85 and always passes it on. The model takes the strength
  as part of the command.

## Model

| member | source | states |
|---|---|---|
| `Requests.ModelEndpoint` | src/cli/fluxcli.py:87-95 | Each of the four model names maps to its fixed endpoint path. Every other name raises "Unknown model" (the same table is used at lines 249-257). |
| `Requests.ResolveDims` | src/cli/fluxcli.py:98-112 | A recognised aspect ratio replaces width and height with its fixed pair. An unrecognised one leaves them as passed. Without one, each missing or zero dimension becomes 1024 or 768 independently, and non-zero values are kept. |
| `Requests.GenerateImageRequest` | src/cli/fluxcli.py:85-119 | It raises exactly when the model is unknown, and then it builds no payload. Otherwise it posts to the model's endpoint with the prompt, the resolved width and height, and the aspect ratio: the given string when one was given, null exactly when none was. |
| `Requests.InpaintRequest` | src/cli/fluxcli.py:177-191 | The fill endpoint receives the image, mask and prompt unchanged, plus the fixed settings: 50 steps, guidance 60, output format "jpeg" and safety tolerance 2. |
| `Requests.ControlPayload` | src/cli/fluxcli.py:221-230 | Every kwarg overrides the base payload and the per-type default. Guidance not in the kwargs takes the type's default. Base keys that no kwarg overrides keep their base values. The keys are the base keys, guidance and the kwargs. Kwargs never repeat a named parameter, since Python rejects such a call. |
| `Requests.ControlRequest` | src/cli/fluxcli.py:206-230 | An unsupported control type raises. canny, depth and pose post to their own endpoints. The guidance sent is the caller's if given, otherwise 30, 15 or 25. Every kwarg reaches the payload unchanged. The posted payload is exactly `ControlPayload`, so the prompt, the control image and the base defaults (50 steps, "jpeg", safety tolerance 2) are posted unless a kwarg overrides them. |
| `Requests.ControlGenerate` | src/cli/fluxcli.py:204-236 | Building the base dict and then updating it with the type defaults and then with the kwargs yields exactly the request `ControlRequest` specifies. |
| `Requests.Img2imgSizing` | src/cli/fluxcli.py:259-268 | If either requested dimension is missing, both become the original image's. Otherwise both are the requested values. They pass through unchanged exactly when width × height ≤ 1048576. |
| `Requests.Img2imgRequest` | src/cli/fluxcli.py:247-293 | An unknown model raises "Unknown model". A zero original width raises ZeroDivisionError, and so does a zero original height when the size is over the cap. Otherwise the model's endpoint receives the prompt, image and strength, the sized dimensions when within the cap, and the fixed settings: guidance scale 7.5, 50 inference steps, the "euler_ancestral" scheduler and colour-profile preservation. |
| `Polling.StatusStep` | src/cli/fluxcli.py:70-77 | A reply is ready exactly when its status is "Ready" and failed exactly when it is "failed". It raises exactly when the request failed, the reply is not a dict, or the reply has no status. Any other reply keeps polling. |
| `Polling.PollFrom` | src/cli/fluxcli.py:60-83 | Polling from attempt n issues between n and 30 status requests in total. It stops at n without another request only when the 30-attempt limit is already reached, and then returns None. |
| `Polling.PollStopsAtFirstDecision` | src/cli/fluxcli.py:66-79 | The first reply that is ready, failed or raising decides the outcome after exactly that many requests: the reply itself, None, or the exception. |
| `Polling.PollTimesOut` | src/cli/fluxcli.py:66-83 | After 30 replies that are neither ready nor failed, polling returns None after exactly 30 requests. |
| `Polling.PollResultIsLastReply` | src/cli/fluxcli.py:66-77 | A returned result is always the last reply read. That reply is "Ready", and every earlier reply kept the loop polling. |
| `Polling.GetTaskResult` | src/cli/fluxcli.py:60-83 | The polling loop returns the same outcome and issues the same number of requests (1 to 30) as `Poll`. |
| `Polling.TaskId` | src/cli/fluxcli.py:126-129 | The task id is read only from a reply that is a dict. It is truthy exactly when the reply has a truthy `id`. |
| `Polling.ExtractSample` | src/cli/fluxcli.py:131-134 | It returns the sample exactly when the poll result is a dict whose `result` dict holds a truthy `sample`, and it returns that value. It raises AttributeError exactly when a truthy poll result, or its `result` field, is not a dict. |
| `Polling.TaskOutcome` | src/cli/fluxcli.py:126-134 | A falsy task id gives None. A failing POST propagates its exception, and so does an exception raised while polling on a truthy task id. When polling returns, the outcome is the sample extracted from its result: None for a failed task, a timeout or a result without a truthy sample, and AttributeError for a result that is not a dict. A returned sample is always truthy. |
| `Polling.SampleComesFromFirstReadyReply` | src/cli/fluxcli.py:126-134 | A returned sample requires a truthy task id. It is the `result.sample` of the first "Ready" status reply, and every earlier reply kept polling. |
| `Polling.AwaitSample` | src/cli/fluxcli.py:195-202 | The tail shared by all four generation methods gives `TaskOutcome`. It issues status requests only when there is a truthy task id, and at most 30 of them. |
| `Polling.ReadyReplyYieldsSample` | src/cli/fluxcli.py:126-134 | With a truthy task id, when the first deciding status reply is "Ready" and holds a truthy `result.sample`, the generation method returns that sample. |
| `Polling.FailedTaskGivesNone` | src/cli/fluxcli.py:73-79 | With a truthy task id, a first deciding status reply of "failed" makes the generation method return None. |
| `Polling.TimeoutGivesNone` | src/cli/fluxcli.py:66-83 | With a truthy task id, 30 status replies that all keep polling make the generation method return None. |
| `Cli.ImageFormatIgnoresCase` | src/cli/fluxcli.py:400-402 | The format of a content type is the same as that of its lower-cased form. |
| `Cli.ContainsIffOccurs` | src/cli/fluxcli.py:401 | The substring search is true exactly when the pattern occurs at some index of the string. |
| `Cli.ImageFormat` | src/cli/fluxcli.py:400-404 | The format is "png" exactly when the lower-cased content type contains "png". An absent header counts as image/jpeg. Every other content type gives "jpeg". |
| `Cli.AbsentContentTypeIsJpeg` | src/cli/fluxcli.py:400 | Without a content-type header the image is reported as jpeg. |
| `Cli.UpperCasePngIsPng` | src/cli/fluxcli.py:400-402 | An upper-case "IMAGE/PNG" header is reported as png. |
| `Cli.ControlKwargs` | src/cli/fluxcli.py:373-375 | The control sub-command always passes its steps as a kwarg. It passes guidance only when one was given. |
| `Cli.ControlCommandGuidance` | src/cli/fluxcli.py:372-378 | For a supported control type, the posted steps are the command line's. The guidance is the command line's if given, otherwise the type's default. |
| `Cli.Run` | src/cli/fluxcli.py:351-424 | The request posted is exactly `CommandRequest(cmd)`, the one the sub-command's generation method builds from the parsed arguments; nothing is posted when there is no command or that method raises first. The exit code is 0 exactly when the command posts, yields a sample that is a string and the image fetch succeeds. A sample that is not a string is no URL the HTTP client can fetch, so it gives exit 1. Otherwise it is 1. Output is printed exactly on exit 0, with the format derived from the content type and the fetched bytes. Only the sample is fetched. A command that raises before posting issues no status request. |

## Left out

- HTTP: every request is an input `Reply`. `RequestFailed` stands for a network error and for a body that is not JSON, both of which raise. The client never checks a POST's status code, so the model does not either. A status request past the end of the given replies counts as a failed request.
- The base URL, the `X-Key` header and the API-key lookup in the `FluxAPI` constructor (lines 24-29) are configuration plumbing and are not modelled. A missing key would make `main` exit with 1.
- File I/O: `encode_image`, `save_image_from_url` (never called by `main`), the temporary mask file and opening the input image. File contents appear as their base64 text in `Command`. A file that cannot be opened is not modelled.
- Image work: `create_mask` (PIL drawing with float multipliers), resizing and JPEG re-encoding.
- `Requests.Img2imgRequest`: the over-cap rescale uses float division, a square root and truncation. It is not computed; its result is the input `rescaled`. Its two division-by-zero cases are modelled: a zero original width, and a zero original height over the cap.
- Sleeping between polls, the `silent` flag, and every progress or diagnostic print, including the progress lines on standard output.
- argparse: the sub-command definitions and their `choices`. A `Command` holds the parsed values. Model names, control types and aspect ratios are arbitrary strings, so values outside the choices take the error paths `FluxAPI` itself has.
- base64 encoding and `json.dumps`: `Output` holds the format and the raw fetched bytes that are printed base64-encoded.
- Floats are idealised as reals (`Json.Float`). Python's int and float are told apart, but IEEE rounding is not modelled.
- `Cli.ImageFormat`: lower-cases ASCII letters only, where Python's `str.lower` also folds non-ASCII letters. The reported format is nevertheless the same for every header, since no non-ASCII character lower-cases to "p", "n" or "g".
