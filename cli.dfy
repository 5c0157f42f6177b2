/** The command-line driver: one sub-command runs one generation operation,
    the resulting sample URL is fetched, and the image is printed as a JSON
    document with its format and data; the exit code says whether that
    happened. */
module Cli {
  import opened Values
  import opened Requests
  import opened Polling

  newtype byte = b: int | 0 <= b < 256

  // ---------------------------------------------------------------------
  // Content type -> image format

  /** ASCII lower-casing of one character. */
  function LowerChar(c: char): char {
    if 'A' <= c <= 'Z' then (c as int + 32) as char else c
  }

  function Lower(s: string): string {
    seq(|s|, i requires 0 <= i < |s| => LowerChar(s[i]))
  }

  /** `p` occurs in `s` starting at index `i`. */
  predicate OccursAt(s: string, p: string, i: nat) {
    i <= |s| && p <= s[i..]
  }

  /** Substring search, as Python's `in` on strings: is `p` a prefix of
      `s` or of one of its suffixes? */
  function Contains(s: string, p: string): bool
    decreases |s|
  {
    if p <= s then true
    else if s == [] then false
    else Contains(s[1..], p)
  }

  lemma {:induction false} OccurrenceIsContained(s: string, p: string, i: nat)
    requires OccursAt(s, p, i)
    ensures Contains(s, p)
    decreases i
  {
    if !(p <= s) {
      assert i > 0;
      assert s[1..][i - 1..] == s[i..];
      OccurrenceIsContained(s[1..], p, i - 1);
    }
  }

  lemma {:induction false} ContainedOccurs(s: string, p: string) returns (i: nat)
    requires Contains(s, p)
    ensures OccursAt(s, p, i)
    decreases |s|
  {
    if p <= s {
      i := 0;
    } else {
      var j := ContainedOccurs(s[1..], p);
      assert s[1..][j..] == s[j + 1..];
      i := j + 1;
    }
  }

  lemma ContainsIffOccurs(s: string, p: string)
    ensures Contains(s, p) <==> exists i: nat :: OccursAt(s, p, i)
  {
    if Contains(s, p) {
      var i := ContainedOccurs(s, p);
    }
    forall i: nat | OccursAt(s, p, i) ensures Contains(s, p) {
      OccurrenceIsContained(s, p, i);
    }
  }

  const DefaultContentType := "image/jpeg"

  /** The content-type header as main inspects it: lower-cased, and
      image/jpeg when the header is absent. */
  function ContentHeader(contentType: Option<string>): string {
    Lower(if contentType.Some? then contentType.value else DefaultContentType)
  }

  /** The format main reports for a fetched image: "png" when the
      lower-cased content type (image/jpeg when the header is absent)
      contains "png" anywhere, "jpeg" otherwise. */
  function ImageFormat(contentType: Option<string>): (f: string)
    ensures f == "png" || f == "jpeg"
    ensures f == "png" <==> exists i: nat :: OccursAt(ContentHeader(contentType), "png", i)
  {
    var header := ContentHeader(contentType);
    ContainsIffOccurs(header, "png");
    if Contains(header, "png") then "png" else "jpeg"
  }

  /** Without a content-type header the image is reported as jpeg. */
  lemma AbsentContentTypeIsJpeg()
    ensures ImageFormat(None) == "jpeg"
  {
    var header := ContentHeader(None);
    assert header == "image/jpeg";
    forall i: nat ensures !OccursAt(header, "png", i) {
      if i + 3 <= |header| {
        assert header[i..][0] == header[i];
        assert header[i..][1] == header[i + 1];
      }
    }
  }

  /** The case of the letters in the header does not change the result. */
  lemma ImageFormatIgnoresCase(s: string)
    ensures ImageFormat(Some(s)) == ImageFormat(Some(Lower(s)))
  {
    assert Lower(Lower(s)) == Lower(s);
  }

  /** For instance, an upper-case header is reported as png. */
  lemma UpperCasePngIsPng()
    ensures ImageFormat(Some("IMAGE/PNG")) == "png"
  {
    var header := ContentHeader(Some("IMAGE/PNG"));
    assert header == "image/png";
    assert OccursAt(header, "png", 6);
  }

  // ---------------------------------------------------------------------
  // main

  /** A parsed command line. File contents the sub-commands read are given
      as their base64 text; img2img's original size and the dimensions its
      floating-point rescale would yield are given as values. */
  datatype Command =
    | Generate(prompt: string, model: string, width: Option<int>, height: Option<int>, aspectRatio: Option<string>)
    | Inpaint(image: string, mask: string, prompt: string)
    | Control(controlType: string, controlImage: string, prompt: string, steps: int, guidance: Option<real>)
    | Img2img(image: string, prompt: string, model: string, strength: real, width: Option<int>, height: Option<int>,
              origWidth: nat, origHeight: nat, rescaled: (int, int))
    | NoCommand

  /** The keyword arguments main passes to control_generate: the steps, and
      the guidance only when one was given. */
  function ControlKwargs(steps: int, guidance: Option<real>): (kw: map<string, Json>)
    ensures kw.Keys == if guidance.Some? then {"steps", "guidance"} else {"steps"}
    ensures kw["steps"] == Int(steps)
    ensures guidance.Some? ==> kw["guidance"] == Float(guidance.value)
  {
    var kw := map["steps" := Int(steps)];
    if guidance.Some? then kw["guidance" := Float(guidance.value)] else kw
  }

  /** The request the command's generation method posts, or what it raises first. */
  function CommandRequest(cmd: Command): Result<Request>
    requires !cmd.NoCommand?
  {
    match cmd
    case Generate(prompt, model, width, height, aspectRatio) =>
      GenerateImageRequest(prompt, model, width, height, aspectRatio)
    case Inpaint(image, mask, prompt) => Ok(InpaintRequest(image, mask, prompt))
    case Control(controlType, controlImage, prompt, steps, guidance) =>
      ControlRequest(controlType, controlImage, prompt, ControlKwargs(steps, guidance))
    case Img2img(image, prompt, model, strength, width, height, origWidth, origHeight, rescaled) =>
      Img2imgRequest(image, prompt, model, strength, width, height, origWidth, origHeight, rescaled)
  }

  /** On the control command the guidance sent is the one given on the
      command line, else the control type's default; the steps are always
      the command line's. */
  lemma ControlCommandGuidance(controlType: string, controlImage: string, prompt: string, steps: int, guidance: Option<real>)
    requires controlType in {"canny", "depth", "pose"}
    ensures var r := CommandRequest(Control(controlType, controlImage, prompt, steps, guidance));
      && r.Ok?
      && r.value.payload["steps"] == Int(steps)
      && r.value.payload["guidance"] ==
           match guidance
           case Some(g) => Float(g)
           case None => Int(if controlType == "canny" then 30 else if controlType == "depth" then 15 else 25)
  {
  }

  /** The JSON document main prints on success: the image format and the
      fetched bytes (printed base64-encoded). */
  datatype Output = Output(format: string, data: seq<byte>)

  /** The reply to fetching the sample URL. */
  datatype Fetch = FetchFailed | Fetched(contentType: Option<string>, content: seq<byte>)

  /** The process's exit code and what it printed as its result. */
  datatype Exit = Exit(code: int, output: Option<Output>)

  /** main: post the request the command's generation method builds
      (`posted`), run that method against the POST reply
      `submit` and the status `replies`, then fetch the sample URL
      (answered by `fetch`). Any exception, a missing sample, a sample that
      is not a string (no URL the HTTP client can fetch) or a failed fetch
      gives exit code 1; otherwise the image is printed and the code is 0. */
  method Run(cmd: Command, submit: Reply, replies: seq<Reply>, fetch: Fetch)
    returns (exit: Exit, posted: Option<Request>, fetchedUrl: Option<Json>, requests: nat)
    ensures posted == if !cmd.NoCommand? && CommandRequest(cmd).Ok? then Some(CommandRequest(cmd).value) else None
    ensures exit.code == 0 || exit.code == 1
    ensures exit.code == 0 <==> exit.output.Some?
    ensures exit.code == 0 <==>
      && !cmd.NoCommand?
      && CommandRequest(cmd).Ok?
      && TaskOutcome(submit, replies).Ok? && TaskOutcome(submit, replies).value.Some?
      && TaskOutcome(submit, replies).value.value.Str?
      && fetch.Fetched?
    ensures exit.output.Some? ==> exit.output.value == Output(ImageFormat(fetch.contentType), fetch.content)
    ensures fetchedUrl.Some? <==>
      && !cmd.NoCommand? && CommandRequest(cmd).Ok?
      && TaskOutcome(submit, replies).Ok? && TaskOutcome(submit, replies).value.Some?
    ensures fetchedUrl.Some? ==> TaskOutcome(submit, replies) == Ok(fetchedUrl)
    ensures fetchedUrl.Some? && !fetchedUrl.value.Str? ==> exit.code == 1
    ensures requests <= MaxAttempts
    ensures cmd.NoCommand? || CommandRequest(cmd).Raised? ==> requests == 0
  {
    exit, posted, fetchedUrl, requests := Exit(1, None), None, None, 0;
    var request: Result<Request>;
    match cmd {
      case NoCommand =>
        return;
      case Generate(prompt, model, width, height, aspectRatio) =>
        request := GenerateImageRequest(prompt, model, width, height, aspectRatio);
      case Inpaint(image, mask, prompt) =>
        request := Ok(InpaintRequest(image, mask, prompt));
      case Control(controlType, controlImage, prompt, steps, guidance) =>
        request := ControlGenerate(controlType, controlImage, prompt, ControlKwargs(steps, guidance));
      case Img2img(image, prompt, model, strength, width, height, origWidth, origHeight, rescaled) =>
        request := Img2imgRequest(image, prompt, model, strength, width, height, origWidth, origHeight, rescaled);
    }
    if request.Raised? {
      return;
    }
    posted := Some(request.value);
    var image;
    image, requests := AwaitSample(submit, replies);
    if image.Raised? || image.value.None? {
      return;
    }
    fetchedUrl := image.value;
    if !fetchedUrl.value.Str? {
      return;   // a sample that is not a string is no URL to fetch
    }
    match fetch {
      case FetchFailed =>
      case Fetched(contentType, content) =>
        exit := Exit(0, Some(Output(ImageFormat(contentType), content)));
    }
  }
}
