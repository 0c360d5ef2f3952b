/**
 * The Triton Python backend of the segmentation service: `initialize`, which
 * works out which SAM2 configuration to load and falls back to a stub when
 * nothing loads, and `execute`, which answers each request with a result or
 * an error.
 */
module Sam2Model {
  import opened Wrappers
  import opened Strings
  import PosixPath

  const YAML := ".yaml"
  const CONFIG_ROOT := "/opt/sam2/sam2/configs"
  const DEFAULT_NAME := "sam2"
  const CHECKPOINT_VAR := "SAM2_CHECKPOINT"
  const DEFAULT_CHECKPOINT := "/models/sam2/weights/sam2_hiera_large.pt"
  const CFG_VAR := "SAM2_MODEL_CFG"
  const DEFAULT_CFG := "sam2_hiera_l"
  const INFERENCE_MESSAGE := "sam2 inference"
  const STUB_MESSAGE := "stub response - SAM2 not installed in image"

  // ---------------------------------------------------------------------
  // Choosing the configuration
  // ---------------------------------------------------------------------

  /** `token[:-5] if token.endswith(".yaml") else token` */
  function StripYaml(token: string): (r: string)
    ensures EndsWith(token, YAML) ==> r + YAML == token
    ensures !EndsWith(token, YAML) ==> r == token
  {
    if EndsWith(token, YAML) then token[..|token| - |YAML|] else token
  }

  /** The configs sub-directory a token belongs to. */
  function Subdir(name: string): string {
    if StartsWith(name, "sam2.1_") then "sam2.1" else "sam2"
  }

  /** `_cfg_path_from_token`, as the string `str()` gives for the path. */
  function CfgPathFromToken(token: string): string {
    var name := StripYaml(token);
    PosixPath.Normalize(PosixPath.Join(PosixPath.Join(CONFIG_ROOT, Subdir(name)), name + YAML))
  }

  /** The alias rewrites of `_normalize_name`, applied in the code's order. */
  function Aliased(name: string): string {
    var m := ReplaceAll(name, "base-plus", "base_plus");
    ReplaceAll(ReplaceAll(ReplaceAll(ReplaceAll(m, "small", "s"), "tiny", "t"), "large", "l"), "base_plus", "b+")
  }

  /**
   * `_normalize_name`: strip ".yaml", shorten the size names, and put a
   * "sam2.1_" or "sam2_" name under its group.
   */
  function NormalizeName(token: string): string {
    Group(Aliased(StripYaml(token)))
  }

  /** A "sam2.1_" or "sam2_" name is put under its group; any other name is kept. */
  function Group(m: string): (r: string)
    ensures StartsWith(m, "sam2.1_") ==> r == "sam2.1/" + m
    ensures !StartsWith(m, "sam2.1_") && StartsWith(m, "sam2_") ==> r == "sam2/" + m
    ensures !StartsWith(m, "sam2.1_") && !StartsWith(m, "sam2_") ==> r == m
  {
    if StartsWith(m, "sam2.1_") then "sam2.1/" + m
    else if StartsWith(m, "sam2_") then "sam2/" + m
    else m
  }

  /** A name the two groups of Hydra configs know gets a "configs/" variant too. */
  predicate Grouped(norm: string) {
    StartsWith(norm, "sam2.1/") || StartsWith(norm, "sam2/")
  }

  /**
   * The configurations `initialize` tries, in order: the setting itself when
   * it names an existing ".yaml" file, the path built from it, its Hydra
   * name, and that name under "configs/" for a grouped name.
   */
  function CfgCandidates(setting: string, settingIsFile: bool): seq<string> {
    CandidateList(if EndsWith(setting, YAML) && settingIsFile then Some(PosixPath.Normalize(setting)) else None,
                  CfgPathFromToken(setting), NormalizeName(StripYaml(setting)))
  }

  /** The list `cfg_candidates` ends up as, from its parts. */
  function CandidateList(found: Option<string>, constructed: string, norm: string): (r: seq<string>)
    ensures var k := if found.Some? then 1 else 0;
            |r| == k + 2 + (if Grouped(norm) then 1 else 0) && 2 <= |r| <= 4 &&
            (found.Some? ==> r[0] == found.value) &&
            r[k] == constructed && r[k + 1] == norm &&
            (Grouped(norm) ==> r[k + 2] == "configs/" + norm)
  {
    (if found.Some? then [found.value] else []) + [constructed, norm] + (if Grouped(norm) then ["configs/" + norm] else [])
  }

  /** The segments of the configs directory. */
  const CONFIG_SEGMENTS := ["opt", "sam2", "sam2", "configs"]

  lemma ConfigRootSegments()
    ensures PosixPath.AllSegments(CONFIG_SEGMENTS) && CONFIG_SEGMENTS != []
    ensures CONFIG_ROOT == "/" + PosixPath.JoinWith(CONFIG_SEGMENTS)
    ensures CONFIG_ROOT != "" && CONFIG_ROOT[|CONFIG_ROOT| - 1] == 's'
  {
    var segs := CONFIG_SEGMENTS;
    assert PosixPath.JoinWith(segs[3..]) == "configs";
    assert PosixPath.JoinWith(segs[2..]) == "sam2" + "/" + "configs";
    assert PosixPath.JoinWith(segs[1..]) == "sam2" + "/" + ("sam2" + "/" + "configs");
    assert PosixPath.JoinWith(segs) == "opt" + "/" + ("sam2" + "/" + ("sam2" + "/" + "configs"));
    forall i | 0 <= i < |segs| ensures PosixPath.Segment(segs[i]) {
      assert segs[i] in {"opt", "sam2", "configs"};
    }
  }

  /** The file name built from a token without "/" is a single path segment. */
  lemma FileSegment(token: string)
    requires !HasChar(token, '/')
    ensures PosixPath.Segment(StripYaml(token) + YAML)
  {
    var name := StripYaml(token);
    var file := name + YAML;
    forall i | 0 <= i < |file| ensures file[i] != '/' {
      if i < |name| {
        assert file[i] == name[i] == token[i];
      } else {
        assert file[i] == YAML[i - |name|];
      }
    }
    assert |file| >= 5;
  }

  lemma SubdirSegment(name: string)
    ensures PosixPath.Segment(Subdir(name)) && Subdir(name)[0] == 's' && Subdir(name)[|Subdir(name)| - 1] != '/'
  {
  }

  /** Two segments joined under the configs directory give an already normal path. */
  lemma UnderConfigRoot(sub: string, file: string)
    requires PosixPath.Segment(sub) && PosixPath.Segment(file)
    ensures PosixPath.Normalize(PosixPath.Join(PosixPath.Join(CONFIG_ROOT, sub), file)) == CONFIG_ROOT + "/" + sub + "/" + file
  {
    ConfigRootSegments();
    PosixPath.UnderSegments(CONFIG_SEGMENTS, sub, file);
  }

  /** A token with no "/" yields the file of that name under the configs directory. */
  lemma PlainTokenPath(token: string)
    requires !HasChar(token, '/')
    ensures CfgPathFromToken(token) == CONFIG_ROOT + "/" + Subdir(StripYaml(token)) + "/" + StripYaml(token) + YAML
  {
    FileSegment(token);
    SubdirSegment(StripYaml(token));
    UnderConfigRoot(Subdir(StripYaml(token)), StripYaml(token) + YAML);
  }

  /** An absolute token replaces the configs directory altogether. */
  lemma AbsoluteTokenPath(token: string)
    requires StartsWith(StripYaml(token), "/")
    ensures CfgPathFromToken(token) == PosixPath.Normalize(StripYaml(token) + YAML)
  {
    var name := StripYaml(token);
    assert (name + YAML)[..1] == name[..1];
  }

  /**
   * No alias word can start anywhere in `s`: no "ba", "sm", "ti" or "la"
   * occurs, and every alias word begins with one of those.
   */
  predicate NoAliasStart(s: string) {
    NoSizeStart(s) && forall i :: 0 <= i < |s| - 1 ==> s[i] != 'b' || s[i + 1] != 'a'
  }

  /** No "sm", "ti" or "la" occurs: none of "small", "tiny" and "large" can start. */
  predicate NoSizeStart(s: string) {
    forall i :: 0 <= i < |s| - 1 ==>
      (s[i] != 's' || s[i + 1] != 'm') && (s[i] != 't' || s[i + 1] != 'i') && (s[i] != 'l' || s[i + 1] != 'a')
  }

  /** None of the words `_normalize_name` rewrites occurs in `s`. */
  predicate NoAliasWord(s: string) {
    !Contains(s, "base-plus") && !Contains(s, "base_plus") && !Contains(s, "small") &&
    !Contains(s, "tiny") && !Contains(s, "large")
  }

  /** A text where no alias word can start holds no alias word. */
  lemma NoAliasStartNoWord(s: string)
    requires NoAliasStart(s)
    ensures NoAliasWord(s)
  {
    NotContainsByPair(s, "base-plus");
    NotContainsByPair(s, "base_plus");
    NotContainsByPair(s, "small");
    NotContainsByPair(s, "tiny");
    NotContainsByPair(s, "large");
  }

  /** A name holding none of the size words keeps them all. */
  lemma SizeFree(m: string)
    requires NoSizeStart(m)
    ensures ReplaceAll(ReplaceAll(ReplaceAll(m, "small", "s"), "tiny", "t"), "large", "l") == m
  {
    Unmatched(m, "small", "s");
    Unmatched(m, "tiny", "t");
    Unmatched(m, "large", "l");
  }

  /** A pattern whose first two characters never meet in `s` leaves it unchanged. */
  lemma Unmatched(s: string, pat: string, rep: string)
    requires |pat| >= 2
    requires forall i :: 0 <= i < |s| - 1 ==> s[i] != pat[0] || s[i + 1] != pat[1]
    ensures ReplaceAll(s, pat, rep) == s
  {
    NotContainsByPair(s, pat);
    ReplaceAllAbsent(s, pat, rep);
  }

  /** A text holding none of the alias words is not rewritten. */
  lemma AliasFreeKept(s: string)
    requires NoAliasWord(s)
    ensures Aliased(s) == s
  {
    ReplaceAllAbsent(s, "base-plus", "base_plus");
    ReplaceAllAbsent(s, "small", "s");
    ReplaceAllAbsent(s, "tiny", "t");
    ReplaceAllAbsent(s, "large", "l");
    ReplaceAllAbsent(s, "base_plus", "b+");
  }

  /** A prefix of a text holding none of the alias words holds none either. */
  lemma NoAliasWordPrefix(s: string, n: nat)
    requires NoAliasWord(s) && n <= |s|
    ensures NoAliasWord(s[..n])
  {
    ContainsPrefix(s, "base-plus", n);
    ContainsPrefix(s, "base_plus", n);
    ContainsPrefix(s, "small", n);
    ContainsPrefix(s, "tiny", n);
    ContainsPrefix(s, "large", n);
  }

  /** A name holding none of the alias words is only stripped of ".yaml" and grouped. */
  lemma AliasFreeName(name: string)
    requires NoAliasWord(name)
    ensures Aliased(name) == name
    ensures NormalizeName(name) == Group(StripYaml(name))
  {
    AliasFreeKept(name);
    var stripped := StripYaml(name);
    NoAliasWordPrefix(name, |stripped|);
    assert stripped == name[..|stripped|];
    AliasFreeKept(stripped);
  }

  /** The part of "sam2.1_hiera_base-plus" before the size word. */
  const BASE_PLUS_HEAD := "sam2.1_hiera_"

  lemma BasePlusHead()
    ensures !HasChar(BASE_PLUS_HEAD, 'b') && StartsWith(BASE_PLUS_HEAD, "sam2.1_")
  {
  }

  lemma BasePlusStrip(token: string) returns (name: string)
    requires token == "sam2.1_hiera_base-plus.yaml"
    ensures StripYaml(token) == name && name == BASE_PLUS_HEAD + "base-plus"
  {
    assert EndsWith(token, YAML);
    name := token[..|token| - 5];
    assert name == "sam2.1_hiera_base-plus";
  }

  lemma BasePlusMiddle(m: string)
    requires m == BASE_PLUS_HEAD + "base_plus"
    ensures ReplaceAll(ReplaceAll(ReplaceAll(m, "small", "s"), "tiny", "t"), "large", "l") == m
  {
    assert m == "sam2.1_hiera_base_plus";
    assert NoSizeStart(m);
    SizeFree(m);
  }

  lemma BasePlusGroup(n: string)
    requires n == BASE_PLUS_HEAD + "b+"
    ensures Group(n) == "sam2.1/sam2.1_hiera_b+"
  {
    BasePlusHead();
    assert n[..7] == BASE_PLUS_HEAD[..7];
    assert "sam2.1/" + n == "sam2.1/sam2.1_hiera_b+";
  }

  /**
   * "base-plus" is rewritten to "base_plus" before the last rewrite turns
   * "base_plus" into "b+", so the hyphenated spelling ends up as "b+" too.
   */
  lemma BasePlusAlias(token: string)
    requires token == "sam2.1_hiera_base-plus.yaml"
    ensures NormalizeName(token) == "sam2.1/sam2.1_hiera_b+"
  {
    var name := BasePlusStrip(token);
    BasePlusHead();
    ReplaceOnce(BASE_PLUS_HEAD, "base-plus", "base_plus");
    BasePlusMiddle(BASE_PLUS_HEAD + "base_plus");
    ReplaceOnce(BASE_PLUS_HEAD, "base_plus", "b+");
    BasePlusGroup(BASE_PLUS_HEAD + "b+");
  }

  /** A "sam2_" name is not a "sam2.1_" name. */
  lemma Sam2NotSam21(m: string)
    requires StartsWith(m, "sam2_")
    ensures !StartsWith(m, "sam2.1_") && Subdir(m) == "sam2" && Group(m) == "sam2/" + m
  {
    assert m[4] == '_';
  }

  lemma PlainSam2Path(setting: string)
    requires !HasChar(setting, '/') && !EndsWith(setting, YAML) && StartsWith(setting, "sam2_")
    ensures CfgPathFromToken(setting) == CONFIG_ROOT + "/" + "sam2" + "/" + setting + YAML
  {
    Sam2NotSam21(setting);
    PlainTokenPath(setting);
  }

  lemma PlainSam2Norm(setting: string)
    requires !EndsWith(setting, YAML) && NoAliasWord(setting) && StartsWith(setting, "sam2_")
    ensures NormalizeName(StripYaml(setting)) == "sam2/" + setting
  {
    Sam2NotSam21(setting);
    AliasFreeName(setting);
  }

  /**
   * A setting without "/", ".yaml" or alias words that starts with "sam2_"
   * gives three candidates: its file in the "sam2" configs directory, its
   * Hydra name in the "sam2" group, and that name under "configs/".
   */
  lemma PlainSam2Name(setting: string, isFile: bool)
    requires !HasChar(setting, '/') && !EndsWith(setting, YAML) && NoAliasWord(setting) && StartsWith(setting, "sam2_")
    ensures var r := CfgCandidates(setting, isFile);
            |r| == 3 && r[0] == CONFIG_ROOT + "/" + "sam2" + "/" + setting + YAML &&
            r[1] == "sam2/" + setting && r[2] == "configs/" + r[1]
  {
    PlainSam2Path(setting);
    PlainSam2Norm(setting);
    var norm := "sam2/" + setting;
    assert Grouped(norm) by { assert norm[..5] == "sam2/"; }
  }

  lemma DefaultStrip(setting: string)
    requires setting == DEFAULT_CFG
    ensures StripYaml(setting) == setting && !EndsWith(setting, YAML) && !HasChar(setting, '/')
  {
    assert setting[|setting| - 1] == 'l';
  }

  lemma DefaultGroup(setting: string)
    requires setting == DEFAULT_CFG
    ensures NoAliasWord(setting) && StartsWith(setting, "sam2_")
  {
    assert setting[..5] == "sam2_";
    assert NoAliasStart(setting);
    NoAliasStartNoWord(setting);
  }

  /** The default's constructed path, written out. */
  lemma DefaultPathSpelledOut(setting: string)
    requires setting == DEFAULT_CFG
    ensures CONFIG_ROOT + "/" + "sam2" + "/" + setting + YAML == "/opt/sam2/sam2/configs/sam2/sam2_hiera_l.yaml"
  {
    var dir := CONFIG_ROOT + "/" + "sam2" + "/";
    assert dir == "/opt/sam2/sam2/configs/sam2/";
  }

  /** The default's Hydra names, written out. */
  lemma DefaultNamesSpelledOut(setting: string)
    requires setting == DEFAULT_CFG
    ensures "sam2/" + setting == "sam2/sam2_hiera_l"
    ensures "configs/" + ("sam2/" + setting) == "configs/sam2/sam2_hiera_l"
  {
  }

  /**
   * With nothing configured, and whether or not a file of that name exists,
   * the default "sam2_hiera_l" gives exactly these three candidates.
   */
  lemma DefaultCandidates(setting: string, isFile: bool)
    requires setting == DEFAULT_CFG
    ensures CfgCandidates(setting, isFile) ==
            ["/opt/sam2/sam2/configs/sam2/sam2_hiera_l.yaml", "sam2/sam2_hiera_l", "configs/sam2/sam2_hiera_l"]
  {
    DefaultStrip(setting);
    DefaultGroup(setting);
    PlainSam2Name(setting, isFile);
    DefaultPathSpelledOut(setting);
    DefaultNamesSpelledOut(setting);
    var r := CfgCandidates(setting, isFile);
    assert r == [r[0], r[1], r[2]];
  }

  // ---------------------------------------------------------------------
  // Loading
  // ---------------------------------------------------------------------

  /** A loaded network: the configuration and checkpoint it came from. */
  datatype Net = Net(config: string, checkpoint: string)

  /** An image predictor wrapping a loaded network. */
  datatype Predictor = Predictor(net: Net)

  /**
   * What the environment provides: the error the SAM2 imports raise (if
   * any), whether a path is an existing file, the error `build_sam2` raises
   * for a configuration and checkpoint (if any), and the error the predictor
   * wrapper raises for a network (if any).
   */
  datatype Sam2Runtime = Sam2Runtime(
    importError: Option<string>,
    isFile: string -> bool,
    build: (string, string) -> Option<string>,
    wrapError: Net -> Option<string>)

  /** The index of the first configuration that loads. */
  function FirstLoadable(cands: seq<string>, checkpoint: string, build: (string, string) -> Option<string>): (r: Option<nat>)
    ensures r.Some? ==> r.value < |cands| && build(cands[r.value], checkpoint).None? &&
                        forall j :: 0 <= j < r.value ==> build(cands[j], checkpoint).Some?
    ensures r.None? <==> forall j :: 0 <= j < |cands| ==> build(cands[j], checkpoint).Some?
    decreases |cands|
  {
    if cands == [] then None
    else if build(cands[0], checkpoint).None? then Some(0)
    else match FirstLoadable(cands[1..], checkpoint, build)
      case None => None
      case Some(i) => Some(i + 1)
  }

  /**
   * The loop over the candidates: stop at the first that loads; otherwise
   * remember the error of the last one tried.
   */
  method LoadFirst(cands: seq<string>, checkpoint: string, build: (string, string) -> Option<string>)
    returns (loaded: Option<Net>, lastError: Option<string>)
    ensures match FirstLoadable(cands, checkpoint, build)
            case Some(i) => loaded == Some(Net(cands[i], checkpoint))
            case None => loaded == None && (cands != [] ==> lastError == build(cands[|cands| - 1], checkpoint))
  {
    loaded, lastError := None, None;
    var k := 0;
    while k < |cands|
      invariant 0 <= k <= |cands|
      invariant forall j :: 0 <= j < k ==> build(cands[j], checkpoint).Some?
      invariant k > 0 ==> lastError == build(cands[k - 1], checkpoint)
    {
      var failure := build(cands[k], checkpoint);
      if failure.None? {
        loaded := Some(Net(cands[k], checkpoint));
        return;
      }
      lastError := failure;
      k := k + 1;
    }
  }

  /** The appends that build `cfg_candidates` from its parts. */
  method AppendCandidates(found: Option<string>, constructed: string, norm: string) returns (cands: seq<string>)
    ensures cands == CandidateList(found, constructed, norm)
  {
    cands := [];
    if found.Some? {
      cands := cands + [found.value];
    }
    cands := cands + [constructed];
    cands := cands + [norm];
    if StartsWith(norm, "sam2.1/") {
      cands := cands + ["configs/" + norm];
    } else if StartsWith(norm, "sam2/") {
      cands := cands + ["configs/" + norm];
    }
  }

  /**
   * `predictor` and `error` are what loading `cands` gives: the predictor
   * for the first network that builds, unless wrapping it raises; otherwise
   * the error that stopped the loading, which for a list that never builds
   * is the last candidate's.
   */
  predicate LoadedFrom(cands: seq<string>, checkpoint: string, runtime: Sam2Runtime,
                       predictor: Option<Predictor>, error: Option<string>)
  {
    (predictor.Some? <==> error.None?) &&
    match FirstLoadable(cands, checkpoint, runtime.build)
    case None => cands != [] && error == runtime.build(cands[|cands| - 1], checkpoint)
    case Some(i) =>
      var net := Net(cands[i], checkpoint);
      if runtime.wrapError(net).Some? then error == runtime.wrapError(net)
      else predictor == Some(Predictor(net))
  }

  /**
   * The part of `initialize` after the imports: build the candidate list,
   * load the first configuration that loads and wrap it in a predictor. When
   * none loads, the error is that of the last candidate; the list is never
   * empty, so there always is one.
   */
  method LoadPredictor(setting: string, checkpoint: string, runtime: Sam2Runtime)
    returns (predictor: Option<Predictor>, error: Option<string>)
    ensures LoadedFrom(CfgCandidates(setting, runtime.isFile(setting)), checkpoint, runtime, predictor, error)
  {
    var found := if EndsWith(setting, YAML) && runtime.isFile(setting) then Some(PosixPath.Normalize(setting)) else None;
    var constructed := CfgPathFromToken(setting);
    var norm := NormalizeName(StripYaml(setting));
    var cands := AppendCandidates(found, constructed, norm);
    assert cands == CfgCandidates(setting, runtime.isFile(setting));
    var loaded, lastError := LoadFirst(cands, checkpoint, runtime.build);
    if loaded.None? {
      // `last_err` is set: there is at least one candidate, so the
      // "Unable to load SAM2 config" fallback is never raised.
      predictor, error := None, lastError;
    } else if runtime.wrapError(loaded.value).Some? {
      predictor, error := None, runtime.wrapError(loaded.value);
    } else {
      predictor, error := Some(Predictor(loaded.value)), None;
    }
  }

  /** `os.environ.get(name, default)` */
  function Setting(env: map<string, string>, name: string, default: string): string {
    if name in env then env[name] else default
  }

  // ---------------------------------------------------------------------
  // Requests and results
  // ---------------------------------------------------------------------

  /** One point of a prompt; a field is `None` when absent. */
  datatype PointValue = Point(x: Option<real>, y: Option<real>, kind: Option<int>) | PointNotDict

  /** A parsed prompt: a dictionary with its "points" and "boxes", or any other JSON value. */
  datatype PromptValue = PromptDict(points: Option<seq<PointValue>>, boxes: Option<seq<real>>) | PromptNotDict

  /** The prompt text, and what `json.loads` makes of it (`None` when it raises). */
  datatype PromptTensor = PromptTensor(text: string, parsed: Option<PromptValue>)

  /** A request; an input is `None` when its tensor is missing. */
  datatype InferRequest = InferRequest(image: Option<string>, prompt: Option<PromptTensor>)

  /** The keyword arguments passed to the predictor; `None` ones are dropped. */
  datatype PromptArgs = PromptArgs(pointCoords: Option<seq<(real, real)>>, pointLabels: Option<seq<int>>, box: Option<seq<real>>)

  datatype RgbImage = RgbImage(width: nat, height: nat)

  /** What the predictor gives: the scores (when they convert to a list) and the PNG mask in base64. */
  datatype Prediction = Prediction(scores: Option<seq<real>>, maskPng: string)

  datatype Attempt<T> = Done(value: T) | Raised(message: string)

  /** Decoding the base64 image, and running the predictor on an image and a prompt. */
  datatype Backend = Backend(
    decode: string -> Attempt<RgbImage>,
    predict: (Predictor, RgbImage, PromptArgs) -> Attempt<Prediction>)

  datatype Mask = Mask(format: string, data: Option<string>)

  datatype InferResult =
    | Inference(model: string, imageLength: nat, prompt: PromptValue, scores: Option<seq<real>>, maskPng: string)
    | Stub(model: string, sam2Error: Option<string>, imageLength: nat, promptJson: string)
  {
    /** The "message" field of the reply. */
    function Message(): string {
      if Inference? then INFERENCE_MESSAGE else STUB_MESSAGE
    }

    function ResultMask(): Mask {
      if Inference? then Mask("png_base64", Some(maskPng)) else Mask("none", None)
    }
  }

  /**
   * Why a request failed, which becomes the `TritonError` of its response:
   * the `ValueError` "Missing required inputs: image_b64 and prompt_json",
   * a prompt that is not shaped as expected, or a step that raised with the
   * given message.
   */
  datatype Failure = MissingInputs | PromptShape | StepRaised(message: string)

  datatype InferResponse = Answer(result: InferResult) | Failed(failure: Failure)

  /** The prompt used when the prompt text is not JSON. */
  const FALLBACK_PROMPT := PromptDict(Some([]), Some([]))

  /** The list of points, with an absent or null "points" read as empty. */
  function PointsOf(prompt: PromptValue): seq<PointValue>
    requires prompt.PromptDict?
  {
    prompt.points.GetOr([])
  }

  /** The predictor's arguments for a prompt; `None` when reading the prompt raises. */
  function PromptArgsOf(prompt: PromptValue): (r: Option<PromptArgs>)
    ensures prompt.PromptNotDict? ==> r.None?
    ensures prompt.PromptDict? ==>
              (r.None? <==> exists i :: 0 <= i < |PointsOf(prompt)| && PointsOf(prompt)[i].PointNotDict?)
    ensures r.Some? ==> var pts := PointsOf(prompt);
              (r.value.pointCoords.None? <==> pts == []) && (r.value.pointLabels.None? <==> pts == []) &&
              (r.value.pointCoords.Some? ==>
                 |r.value.pointCoords.value| == |pts| &&
                 forall i :: 0 <= i < |pts| ==> r.value.pointCoords.value[i] == (pts[i].x.GetOr(0.0), pts[i].y.GetOr(0.0))) &&
              (r.value.pointLabels.Some? ==>
                 |r.value.pointLabels.value| == |pts| &&
                 forall i :: 0 <= i < |pts| ==> r.value.pointLabels.value[i] == pts[i].kind.GetOr(1))
    ensures r.Some? ==> (r.value.box.Some? <==> prompt.boxes.Some? && |prompt.boxes.value| == 4) &&
                        (r.value.box.Some? ==> r.value.box == prompt.boxes)
  {
    match prompt
    case PromptNotDict => None
    case PromptDict(_, boxes) =>
      var pts := PointsOf(prompt);
      if exists i :: 0 <= i < |pts| && pts[i].PointNotDict? then None
      else
        var coords := seq(|pts|, i requires 0 <= i < |pts| => (pts[i].x.GetOr(0.0), pts[i].y.GetOr(0.0)));
        var labels := seq(|pts|, i requires 0 <= i < |pts| => pts[i].kind.GetOr(1));
        Some(PromptArgs(if pts == [] then None else Some(coords),
                        if pts == [] then None else Some(labels),
                        if boxes.Some? && |boxes.value| == 4 then boxes else None))
  }

  /**
   * The loop over the prompt's points: one coordinate pair and one label
   * per point, 0 for a missing coordinate and 1 for a missing label; a
   * point that is not a dictionary raises.
   */
  method CollectPoints(points: seq<PointValue>) returns (ok: bool, coords: seq<(real, real)>, labels: seq<int>)
    ensures !ok <==> exists i :: 0 <= i < |points| && points[i].PointNotDict?
    ensures ok ==> |coords| == |points| && |labels| == |points| &&
                   (forall i :: 0 <= i < |points| ==> coords[i] == (points[i].x.GetOr(0.0), points[i].y.GetOr(0.0))) &&
                   (forall i :: 0 <= i < |points| ==> labels[i] == points[i].kind.GetOr(1))
  {
    coords, labels := [], [];
    var k := 0;
    while k < |points|
      invariant 0 <= k <= |points|
      invariant forall i :: 0 <= i < k ==> points[i].Point?
      invariant |coords| == k && |labels| == k
      invariant forall i :: 0 <= i < k ==> coords[i] == (points[i].x.GetOr(0.0), points[i].y.GetOr(0.0))
      invariant forall i :: 0 <= i < k ==> labels[i] == points[i].kind.GetOr(1)
    {
      var p := points[k];
      if p.PointNotDict? {
        return false, coords, labels;
      }
      coords := coords + [(p.x.GetOr(0.0), p.y.GetOr(0.0))];
      labels := labels + [p.kind.GetOr(1)];
      k := k + 1;
    }
    ok := true;
  }

  /**
   * The model object Triton creates and initialises once, then asks to
   * execute batches of requests.
   */
  class TritonModel {
    var modelName: string
    var sam2Available: bool
    var predictor: Option<Predictor>
    var sam2Error: Option<string>

    /**
     * `initialize`: take the model name from the configuration ("sam2" by
     * default); then try the imports, the candidate configurations in order
     * and the predictor wrapper. Any failure leaves the model in stub mode
     * with the error's text kept; success makes the predictor available.
     */
    constructor Initialize(configName: Option<string>, env: map<string, string>, runtime: Sam2Runtime)
      ensures modelName == configName.GetOr(DEFAULT_NAME)
      ensures sam2Available <==> predictor.Some?
      ensures sam2Available ==> sam2Error == None
      ensures runtime.importError.Some? ==> !sam2Available && sam2Error == runtime.importError
      ensures runtime.importError.None? ==>
                var setting := Setting(env, CFG_VAR, DEFAULT_CFG);
                LoadedFrom(CfgCandidates(setting, runtime.isFile(setting)), Setting(env, CHECKPOINT_VAR, DEFAULT_CHECKPOINT),
                           runtime, predictor, sam2Error)
    {
      var available, wrapped, error := false, None, None;
      if runtime.importError.Some? {
        error := runtime.importError;
      } else {
        var checkpoint := Setting(env, CHECKPOINT_VAR, DEFAULT_CHECKPOINT);
        var setting := Setting(env, CFG_VAR, DEFAULT_CFG);
        wrapped, error := LoadPredictor(setting, checkpoint, runtime);
        available := wrapped.Some?;
      }
      modelName := configName.GetOr(DEFAULT_NAME);
      sam2Available := available;
      predictor := wrapped;
      sam2Error := error;
    }

    /** The answer `execute` gives one request. */
    function Respond(request: InferRequest, backend: Backend): (r: InferResponse)
      reads this
      ensures request.image.None? || request.prompt.None? ==> r == Failed(MissingInputs)
      // Stub mode echoes the length of the image text and the prompt text, without a mask.
      ensures request.image.Some? && request.prompt.Some? && !(sam2Available && predictor.Some?) ==>
                r == Answer(Stub(modelName, sam2Error, |request.image.value|, request.prompt.value.text)) &&
                r.result.ResultMask() == Mask("none", None) && r.result.Message() == STUB_MESSAGE
      // An inference result needs the predictor, reports the image text's length and
      // the prompt it used, and carries a PNG mask.
      ensures r.Answer? && r.result.Inference? ==>
                sam2Available && predictor.Some? && r.result.model == modelName &&
                r.result.imageLength == |request.image.value| &&
                r.result.prompt == request.prompt.value.parsed.GetOr(FALLBACK_PROMPT) &&
                r.result.ResultMask().format == "png_base64" && r.result.Message() == INFERENCE_MESSAGE
      // With the predictor, a decodable image and a well-formed prompt, the answer is the prediction.
      ensures request.image.Some? && request.prompt.Some? && sam2Available && predictor.Some? &&
              backend.decode(request.image.value).Done? ==>
                var prompt := request.prompt.value.parsed.GetOr(FALLBACK_PROMPT);
                (r == Failed(PromptShape) <==> PromptArgsOf(prompt).None?) &&
                (PromptArgsOf(prompt).Some? ==>
                   var predicted := backend.predict(predictor.value, backend.decode(request.image.value).value, PromptArgsOf(prompt).value);
                   (predicted.Raised? ==> r == Failed(StepRaised(predicted.message))) &&
                   (predicted.Done? ==>
                      r.Answer? && r.result.Inference? && r.result.scores == predicted.value.scores &&
                      r.result.ResultMask() == Mask("png_base64", Some(predicted.value.maskPng))))
      ensures request.image.Some? && request.prompt.Some? && sam2Available && predictor.Some? &&
              backend.decode(request.image.value).Raised? ==>
                r == Failed(StepRaised(backend.decode(request.image.value).message))
    {
      if request.image.None? || request.prompt.None? then Failed(MissingInputs)
      else
        var image := request.image.value;
        var text := request.prompt.value.text;
        if sam2Available && predictor.Some? then
          match backend.decode(image)
          case Raised(message) => Failed(StepRaised(message))
          case Done(pixels) =>
            var prompt := request.prompt.value.parsed.GetOr(FALLBACK_PROMPT);
            match PromptArgsOf(prompt)
            case None => Failed(PromptShape)
            case Some(args) =>
              match backend.predict(predictor.value, pixels, args)
              case Raised(message) => Failed(StepRaised(message))
              case Done(prediction) =>
                Answer(Inference(modelName, |image|, prompt, prediction.scores, prediction.maskPng))
        else
          Answer(Stub(modelName, sam2Error, |image|, text))
    }

    /** One pass of the `execute` loop's body. */
    method RespondTo(request: InferRequest, backend: Backend) returns (response: InferResponse)
      ensures response == Respond(request, backend)
    {
      if request.image.None? || request.prompt.None? {
        return Failed(MissingInputs);
      }
      var image := request.image.value;
      if !(sam2Available && predictor.Some?) {
        return Answer(Stub(modelName, sam2Error, |image|, request.prompt.value.text));
      }
      var decoded := backend.decode(image);
      if decoded.Raised? {
        return Failed(StepRaised(decoded.message));
      }
      var prompt := request.prompt.value.parsed.GetOr(FALLBACK_PROMPT);
      if prompt.PromptNotDict? {
        return Failed(PromptShape);
      }
      var ok, coords, labels := CollectPoints(PointsOf(prompt));
      if !ok {
        return Failed(PromptShape);
      }
      var boxes := prompt.boxes;
      var box := if boxes.Some? && |boxes.value| == 4 then boxes else None;
      var pts := PointsOf(prompt);
      assert coords == seq(|pts|, i requires 0 <= i < |pts| => (pts[i].x.GetOr(0.0), pts[i].y.GetOr(0.0)));
      assert labels == seq(|pts|, i requires 0 <= i < |pts| => pts[i].kind.GetOr(1));
      var args := PromptArgs(if coords == [] then None else Some(coords), if labels == [] then None else Some(labels), box);
      assert Some(args) == PromptArgsOf(prompt);
      var predicted := backend.predict(predictor.value, decoded.value, args);
      if predicted.Raised? {
        return Failed(StepRaised(predicted.message));
      }
      response := Answer(Inference(modelName, |image|, prompt, predicted.value.scores, predicted.value.maskPng));
    }

    /** `execute`: one response per request, in order; a failure answers only its own request. */
    method Execute(requests: seq<InferRequest>, backend: Backend) returns (responses: seq<InferResponse>)
      ensures |responses| == |requests|
      ensures forall i :: 0 <= i < |requests| ==> responses[i] == Respond(requests[i], backend)
    {
      responses := [];
      var k := 0;
      while k < |requests|
        invariant 0 <= k <= |requests|
        invariant |responses| == k
        invariant forall i :: 0 <= i < k ==> responses[i] == Respond(requests[i], backend)
      {
        var response := RespondTo(requests[k], backend);
        responses := responses + [response];
        k := k + 1;
      }
    }
  }

  /**
   * A model left in stub mode answers every request that has both inputs with
   * a stub result naming the error that stopped the loading.
   */
  lemma StubModeEchoesInputs(m: TritonModel, request: InferRequest, backend: Backend)
    requires !m.sam2Available && m.sam2Error.Some?
    requires request.image.Some? && request.prompt.Some?
    ensures m.Respond(request, backend).Answer?
    ensures m.Respond(request, backend).result == Stub(m.modelName, m.sam2Error, |request.image.value|, request.prompt.value.text)
  {
  }
}
