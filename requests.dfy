/** The POST requests the four generation operations of FluxAPI make: which
    endpoint they call and what JSON body they send, including the raises
    that happen before anything is sent. */
module Requests {
  import opened Values

  /** One POST: the path below the API's base URL and its JSON body. */
  datatype Request = Request(path: string, payload: map<string, Json>)

  /** The model-name table shared by generate_image and img2img. */
  const ModelEndpoints: map<string, string> := map[
    "flux.1.1-pro" := "/v1/flux-pro-1.1",
    "flux.1-pro" := "/v1/flux-pro",
    "flux.1-dev" := "/v1/flux-dev",
    "flux.1.1-ultra" := "/v1/flux-pro-1.1-ultra"
  ]

  /** The endpoint of a model; a name outside the table (or an empty entry)
      raises the "Unknown model" ValueError. */
  function ModelEndpoint(model: string): (r: Result<string>)
    ensures r.Ok? <==> model in {"flux.1.1-pro", "flux.1-pro", "flux.1-dev", "flux.1.1-ultra"}
    ensures r.Raised? ==> r.error == UnknownModel(model)
    ensures model == "flux.1.1-pro" ==> r == Ok("/v1/flux-pro-1.1")
    ensures model == "flux.1-pro" ==> r == Ok("/v1/flux-pro")
    ensures model == "flux.1-dev" ==> r == Ok("/v1/flux-dev")
    ensures model == "flux.1.1-ultra" ==> r == Ok("/v1/flux-pro-1.1-ultra")
  {
    var endpoint := if model in ModelEndpoints then Some(ModelEndpoints[model]) else None;
    if endpoint.None? || endpoint.value == "" then Raised(UnknownModel(model))
    else Ok(endpoint.value)
  }

  // ---------------------------------------------------------------------
  // generate_image

  /** The recognised aspect ratios and the width and height each stands for. */
  const AspectRatios: map<string, (int, int)> := map[
    "1:1" := (1024, 1024),
    "4:3" := (1024, 768),
    "3:4" := (768, 1024),
    "16:9" := (1024, 576),
    "9:16" := (576, 1024)
  ]

  const DefaultWidth := 1024
  const DefaultHeight := 768

  /** An optional int with Python's `or` fallback: None and 0 give the default. */
  function OrDefault(v: Option<int>, default: int): Option<int> {
    if v.None? || v.value == 0 then Some(default) else v
  }

  /** Whether an optional string is truthy in Python (present and non-empty). */
  predicate Given(s: Option<string>) {
    s.Some? && s.value != ""
  }

  /** The width and height generate_image sends. A recognised aspect ratio
      replaces both; an unrecognised one leaves them as passed; without an
      aspect ratio each missing or zero dimension falls back to its default. */
  function ResolveDims(width: Option<int>, height: Option<int>, aspectRatio: Option<string>): (d: (Option<int>, Option<int>))
    ensures Given(aspectRatio) && aspectRatio.value in AspectRatios ==>
      d == (Some(AspectRatios[aspectRatio.value].0), Some(AspectRatios[aspectRatio.value].1))
    ensures Given(aspectRatio) && aspectRatio.value !in AspectRatios ==> d == (width, height)
    ensures !Given(aspectRatio) ==>
      && d.0.Some? && d.0.value != 0 && d.1.Some? && d.1.value != 0
      && (width.Some? && width.value != 0 ==> d.0 == width)
      && (height.Some? && height.value != 0 ==> d.1 == height)
      && (width.None? || width == Some(0) ==> d.0 == Some(DefaultWidth))
      && (height.None? || height == Some(0) ==> d.1 == Some(DefaultHeight))
  {
    if Given(aspectRatio) then
      var ratio := aspectRatio.value;
      if ratio == "1:1" then (Some(1024), Some(1024))
      else if ratio == "4:3" then (Some(1024), Some(768))
      else if ratio == "3:4" then (Some(768), Some(1024))
      else if ratio == "16:9" then (Some(1024), Some(576))
      else if ratio == "9:16" then (Some(576), Some(1024))
      else (width, height)
    else
      (OrDefault(width, DefaultWidth), OrDefault(height, DefaultHeight))
  }

  /** The request generate_image posts, or the "Unknown model" error it raises
      before building any payload. */
  function GenerateImageRequest(prompt: string, model: string, width: Option<int>, height: Option<int>,
                                aspectRatio: Option<string>): (r: Result<Request>)
    ensures r.Raised? <==> model !in ModelEndpoints
    ensures r.Raised? ==> r.error == UnknownModel(model)
    ensures r.Ok? ==>
      var dims := ResolveDims(width, height, aspectRatio);
      && r.value.path == ModelEndpoints[model]
      && r.value.payload.Keys == {"prompt", "width", "height", "aspect_ratio"}
      && r.value.payload["prompt"] == Str(prompt)
      && r.value.payload["width"] == IntOrNull(dims.0)
      && r.value.payload["height"] == IntOrNull(dims.1)
      && (r.value.payload["aspect_ratio"] == Null <==> !Given(aspectRatio))
      && (Given(aspectRatio) ==> r.value.payload["aspect_ratio"] == Str(aspectRatio.value))
  {
    match ModelEndpoint(model)
    case Raised(e) => Raised(e)
    case Ok(endpoint) =>
      var (w, h) := ResolveDims(width, height, aspectRatio);
      Ok(Request(endpoint, map[
        "prompt" := Str(prompt),
        "width" := IntOrNull(w),
        "height" := IntOrNull(h),
        "aspect_ratio" := if Given(aspectRatio) then Str(aspectRatio.value) else Null
      ]))
  }

  // ---------------------------------------------------------------------
  // inpaint

  /** The request inpaint posts, given the base64 text of the image file and
      of the mask it drew: the caller's data plus fixed generation settings. */
  function InpaintRequest(image: string, mask: string, prompt: string): (r: Request)
    ensures r.path == "/v1/flux-pro-1.0-fill"
    ensures r.payload.Keys == {"image", "mask", "prompt", "steps", "guidance", "output_format", "safety_tolerance"}
    ensures r.payload["image"] == Str(image) && r.payload["mask"] == Str(mask) && r.payload["prompt"] == Str(prompt)
    ensures r.payload["steps"] == Int(50) && r.payload["guidance"] == Int(60)
    ensures r.payload["output_format"] == Str("jpeg") && r.payload["safety_tolerance"] == Int(2)
  {
    Request("/v1/flux-pro-1.0-fill", map[
      "image" := Str(image),
      "mask" := Str(mask),
      "prompt" := Str(prompt),
      "steps" := Int(50),
      "guidance" := Int(60),
      "output_format" := Str("jpeg"),
      "safety_tolerance" := Int(2)
    ])
  }

  // ---------------------------------------------------------------------
  // control_generate

  const ControlEndpoints: map<string, string> := map[
    "canny" := "/v1/flux-pro-1.0-canny",
    "depth" := "/v1/flux-pro-1.0-depth",
    "pose" := "/v1/flux-pro-1.0-pose"
  ]

  /** Per control type, the parameters that override the base payload. */
  const ControlDefaults: map<string, map<string, Json>> := map[
    "canny" := map["guidance" := Int(30)],
    "depth" := map["guidance" := Int(15)],
    "pose" := map["guidance" := Int(25)]
  ]

  /** The payload control_generate builds before its two updates; the
      settings read from kwargs fall back to fixed defaults. */
  function ControlBase(controlImage: string, prompt: string, kwargs: map<string, Json>): map<string, Json> {
    map[
      "prompt" := Str(prompt),
      "control_image" := Str(controlImage),
      "steps" := Get(kwargs, "steps", Int(50)),
      "output_format" := Get(kwargs, "output_format", Str("jpeg")),
      "safety_tolerance" := Get(kwargs, "safety_tolerance", Int(2))
    ]
  }

  /** Keyword arguments of control_generate never repeat its named
      parameters: Python rejects such a call with TypeError before the body
      runs. */
  predicate NoNamedArguments(kwargs: map<string, Json>) {
    "self" !in kwargs && "control_type" !in kwargs && "control_image" !in kwargs && "prompt" !in kwargs
  }

  /** The final control payload: the base payload overridden by the control
      type's defaults and then by the caller's kwargs. Key by key, a kwarg wins
      over the type's default, which wins over the base value. */
  function ControlPayload(controlType: string, controlImage: string, prompt: string,
                          kwargs: map<string, Json>): (p: map<string, Json>)
    requires controlType in ControlDefaults
    requires NoNamedArguments(kwargs)
    ensures p.Keys == ControlBase(controlImage, prompt, kwargs).Keys + {"guidance"} + kwargs.Keys
    ensures forall k :: k in kwargs ==> p[k] == kwargs[k]
    ensures "guidance" !in kwargs ==> p["guidance"] == ControlDefaults[controlType]["guidance"]
    ensures var base := ControlBase(controlImage, prompt, kwargs);
      forall k :: k in base && k !in kwargs && k != "guidance" ==> p[k] == base[k]
  {
    assert ControlDefaults[controlType].Keys == {"guidance"};
    ControlBase(controlImage, prompt, kwargs) + ControlDefaults[controlType] + kwargs
  }

  /** What control_generate posts, or the error it raises for a control type
      outside its table (before the control image is read). */
  function ControlRequest(controlType: string, controlImage: string, prompt: string,
                          kwargs: map<string, Json>): (r: Result<Request>)
    requires NoNamedArguments(kwargs)
    ensures r.Ok? <==> controlType in {"canny", "depth", "pose"}
    ensures r.Raised? ==> r.error == UnsupportedControlType(controlType)
    ensures controlType == "canny" ==> r.Ok? && r.value.path == "/v1/flux-pro-1.0-canny"
    ensures controlType == "depth" ==> r.Ok? && r.value.path == "/v1/flux-pro-1.0-depth"
    ensures controlType == "pose" ==> r.Ok? && r.value.path == "/v1/flux-pro-1.0-pose"
    ensures r.Ok? ==> r.value.payload == ControlPayload(controlType, controlImage, prompt, kwargs)
    ensures r.Ok? ==> forall k :: k in kwargs ==> k in r.value.payload && r.value.payload[k] == kwargs[k]
    ensures r.Ok? ==>
      && "guidance" in r.value.payload
      && r.value.payload["guidance"] ==
           if "guidance" in kwargs then kwargs["guidance"]
           else Int(if controlType == "canny" then 30 else if controlType == "depth" then 15 else 25)
  {
    assert ControlEndpoints.Keys == ControlDefaults.Keys == {"canny", "depth", "pose"};
    if controlType !in ControlEndpoints then Raised(UnsupportedControlType(controlType))
    else Ok(Request(ControlEndpoints[controlType], ControlPayload(controlType, controlImage, prompt, kwargs)))
  }

  /** control_generate as the source writes it: build the base dict, then
      update it in place with the type's defaults and then with the kwargs. */
  method ControlGenerate(controlType: string, controlImage: string, prompt: string,
                         kwargs: map<string, Json>) returns (r: Result<Request>)
    requires NoNamedArguments(kwargs)
    ensures r == ControlRequest(controlType, controlImage, prompt, kwargs)
  {
    if controlType !in ControlEndpoints {
      return Raised(UnsupportedControlType(controlType));
    }
    var payload := ControlBase(controlImage, prompt, kwargs);
    payload := payload + (if controlType in ControlDefaults then ControlDefaults[controlType] else map[]);
    payload := payload + kwargs;
    assert ControlEndpoints.Keys == ControlDefaults.Keys;
    r := Ok(Request(ControlEndpoints[controlType], payload));
  }

  // ---------------------------------------------------------------------
  // img2img

  /** The largest pixel count img2img sends unchanged. */
  const MaxArea := 1048576

  /** The integer part of img2img's sizing: the requested dimensions, or the
      original image's when either is missing, and whether their product is
      within the cap (Within) or over it (OverCap, rescaled in floating point). */
  datatype Sizing = Within(width: int, height: int) | OverCap(width: int, height: int)

  function Img2imgSizing(width: Option<int>, height: Option<int>, origWidth: nat, origHeight: nat): (s: Sizing)
    ensures width.None? || height.None? ==> s.width == origWidth && s.height == origHeight
    ensures width.Some? && height.Some? ==> s.width == width.value && s.height == height.value
    ensures s.Within? <==> s.width * s.height <= MaxArea
  {
    var (w, h) := if width.None? || height.None? then (origWidth, origHeight) else (width.value, height.value);
    if w * h > MaxArea then OverCap(w, h) else Within(w, h)
  }

  /** What img2img posts. `image` is the base64 text of the re-encoded input
      image, `origWidth`/`origHeight` its size, and `rescaled` the dimensions
      the floating-point rescale yields when the pixel count is over the cap.
      A zero original width makes the aspect ratio a division by zero; a zero
      original height makes the aspect ratio 0.0, which the over-cap rescale
      then divides by. */
  function Img2imgRequest(image: string, prompt: string, model: string, strength: real,
                          width: Option<int>, height: Option<int>,
                          origWidth: nat, origHeight: nat, rescaled: (int, int)): (r: Result<Request>)
    ensures model !in ModelEndpoints ==> r == Raised(UnknownModel(model))
    ensures model in ModelEndpoints ==>
      (r.Raised? <==> origWidth == 0 || (Img2imgSizing(width, height, origWidth, origHeight).OverCap? && origHeight == 0))
    ensures r.Raised? && model in ModelEndpoints ==> r.error == ZeroDivisionError
    ensures r.Ok? ==>
      var s := Img2imgSizing(width, height, origWidth, origHeight);
      && r.value.path == ModelEndpoints[model]
      && r.value.payload.Keys == {"prompt", "image", "strength", "width", "height", "guidance_scale",
                                  "num_inference_steps", "scheduler", "preserve_init_image_color_profile"}
      && r.value.payload["prompt"] == Str(prompt)
      && r.value.payload["image"] == Str(image)
      && r.value.payload["strength"] == Float(strength)
      && (s.Within? ==> r.value.payload["width"] == Int(s.width) && r.value.payload["height"] == Int(s.height))
      && (s.OverCap? ==> r.value.payload["width"] == Int(rescaled.0) && r.value.payload["height"] == Int(rescaled.1))
      && r.value.payload["guidance_scale"] == Float(7.5)
      && r.value.payload["num_inference_steps"] == Int(50)
      && r.value.payload["scheduler"] == Str("euler_ancestral")
      && r.value.payload["preserve_init_image_color_profile"] == Bool(true)
  {
    match ModelEndpoint(model)
    case Raised(e) => Raised(e)
    case Ok(endpoint) =>
      var sizing := Img2imgSizing(width, height, origWidth, origHeight);
      if origWidth == 0 then Raised(ZeroDivisionError)   // the aspect ratio orig_height / orig_width
      else if sizing.OverCap? && origHeight == 0 then Raised(ZeroDivisionError)   // max_area / a zero aspect ratio
      else
        var (w, h) := match sizing
                      case Within(w, h) => (w, h)
                      case OverCap(_, _) => rescaled;
        Ok(Request(endpoint, map[
          "prompt" := Str(prompt),
          "image" := Str(image),
          "strength" := Float(strength),
          "width" := Int(w),
          "height" := Int(h),
          "guidance_scale" := Float(7.5),
          "num_inference_steps" := Int(50),
          "scheduler" := Str("euler_ancestral"),
          "preserve_init_image_color_profile" := Bool(true)
        ]))
  }
}
