/** The processing configuration a client sends (`ImageProcessConfig`) and the
    action lists the edge function attaches to a request for the image provider:
    the single-step builders and the composite builder of fun.js. */
module ImageActions {
  import opened Wrappers

  /** A JavaScript number as these handlers meet it: NaN (what `parseInt` yields for
      text without digits) or an integer. */
  datatype JsNumber = NaN | Finite(value: int) {
    /** JavaScript truthiness: NaN and 0 are falsy. */
    predicate Truthy() {
      Finite? && value != 0
    }
  }

  /** Truthiness of an optional string field: absent and "" are falsy. */
  predicate TruthyText(s: Option<string>) {
    s.Some? && s.value != ""
  }

  /** Truthiness of an optional numeric field: absent and 0 are falsy. */
  predicate TruthyInt(n: Option<int>) {
    n.Some? && n.value != 0
  }

  /** `ImageProcessConfig`: every field optional (None stands for an absent key). */
  datatype Config = Config(
    format: Option<string>,
    width: Option<int>,
    height: Option<int>,
    quality: Option<int>,
    angle: Option<int>,
    watermarkText: Option<string>)

  /** The object `{}`. */
  const EmptyConfig: Config := Config(None, None, None, None, None, None)

  /** The four kinds of provider step, in the order the composite builder tries them. */
  datatype Step = FormatStep | ResizeStep | RotateStep | WatermarkStep {
    function Rank(): nat {
      match this
      case FormatStep => 0
      case ResizeStep => 1
      case RotateStep => 2
      case WatermarkStep => 3
    }
  }

  const Pipeline: seq<Step> := [FormatStep, ResizeStep, RotateStep, WatermarkStep]

  /** One entry of the provider's `image` option: `{action, option: {mode?, param}}`.
      A parameter that is `None` is a key that is not sent. */
  datatype Action =
    | FormatAction(f: string)
    | ResizeAction(p: JsNumber, fw: Option<JsNumber>, fh: Option<JsNumber>)
    | RotateAction(a: JsNumber)
    | WatermarkAction(text: string, fontSize: int, color: string, dx: int, dy: int, rotate: int)
  {
    /** The `action` field. */
    function Name(): string {
      match this
      case FormatAction(_) => "format"
      case ResizeAction(_, _, _) => "resize"
      case RotateAction(_) => "rotate"
      case WatermarkAction(_, _, _, _, _, _) => "watermark"
    }

    /** The `option.mode` field; a format step has none. */
    function Mode(): Option<string> {
      match this
      case FormatAction(_) => None
      case ResizeAction(_, _, _) => Some("custom")
      case RotateAction(_) => Some("custom")
      case WatermarkAction(_, _, _, _, _, _) => Some("text")
    }

    function Step(): Step {
      match this
      case FormatAction(_) => FormatStep
      case ResizeAction(_, _, _) => ResizeStep
      case RotateAction(_) => RotateStep
      case WatermarkAction(_, _, _, _, _, _) => WatermarkStep
    }
  }

  /** The fixed look of every text watermark. */
  function Watermark(text: string): Action {
    WatermarkAction(text, 16, "#ffffff80", 10, 10, 30)
  }

  // ---------------------------------------------------------------------------
  // Single-operation builders (imageFormat, imageResize, imageRotate, imageWatermark)
  // ---------------------------------------------------------------------------

  function FormatActions(format: string): seq<Action> {
    [FormatAction(format)]
  }

  /** The resize step of `imageResize`: `p` is always sent, `fw`/`fh` only when truthy,
      so a NaN or 0 is left out rather than sent. */
  function SingleResize(width: JsNumber, height: JsNumber, quality: JsNumber): (a: Action)
    ensures a.ResizeAction? && a.Mode() == Some("custom") && a.p == quality
    ensures a.fw.Some? <==> width.Truthy()
    ensures a.fh.Some? <==> height.Truthy()
    ensures a.fw.Some? ==> a.fw.value == width && a.fw.value.Truthy()
    ensures a.fh.Some? ==> a.fh.value == height && a.fh.value.Truthy()
  {
    ResizeAction(quality,
      if width.Truthy() then Some(width) else None,
      if height.Truthy() then Some(height) else None)
  }

  /** `imageResize` builds its parameter object key by key. */
  method BuildResizeAction(width: JsNumber, height: JsNumber, quality: JsNumber) returns (a: Action)
    ensures a == SingleResize(width, height, quality)
  {
    var fw: Option<JsNumber> := None;
    var fh: Option<JsNumber> := None;
    if width.Truthy() {
      fw := Some(width);
    }
    if height.Truthy() {
      fh := Some(height);
    }
    a := ResizeAction(quality, fw, fh);
  }

  function ResizeActions(width: JsNumber, height: JsNumber, quality: JsNumber): seq<Action> {
    [SingleResize(width, height, quality)]
  }

  function RotateActions(angle: JsNumber): seq<Action> {
    [RotateAction(angle)]
  }

  function WatermarkActions(text: string): seq<Action> {
    [Watermark(text)]
  }

  // ---------------------------------------------------------------------------
  // Composite builder (imageCompositeProcess)
  // ---------------------------------------------------------------------------

  /** `quality || 90`. */
  function QualityOrDefault(quality: Option<int>): int {
    if TruthyInt(quality) then quality.value else 90
  }

  /** A numeric config field passed through as a parameter (`fw: config.width`). */
  function PassThrough(n: Option<int>): Option<JsNumber> {
    if n.Some? then Some(Finite(n.value)) else None
  }

  /** Whether the composite builder emits a step of this kind for `c`. */
  predicate Requested(c: Config, s: Step) {
    match s
    case FormatStep => TruthyText(c.format)
    case ResizeStep => TruthyInt(c.width) || TruthyInt(c.height)
    case RotateStep => TruthyInt(c.angle)
    case WatermarkStep => TruthyText(c.watermarkText)
  }

  /** The step of kind `s` the composite builder emits for `c`, when it emits one. */
  function StepAction(c: Config, s: Step): (a: Action)
    requires Requested(c, s)
    ensures a.Step() == s
  {
    match s
    case FormatStep => FormatAction(c.format.value)
    case ResizeStep => ResizeAction(Finite(QualityOrDefault(c.quality)), PassThrough(c.width), PassThrough(c.height))
    case RotateStep => RotateAction(Finite(c.angle.value))
    case WatermarkStep => Watermark(c.watermarkText.value)
  }

  /** The step of kind `s` as a list of one, or nothing when it is not requested. */
  function Emit(c: Config, s: Step): seq<Action> {
    if Requested(c, s) then [StepAction(c, s)] else []
  }

  /** The requested steps among `steps`, in the order of `steps`. */
  function Select(c: Config, steps: seq<Step>): (r: seq<Action>)
    ensures |r| <= |steps|
    ensures forall i :: 0 <= i < |r| ==> r[i].Step() in steps && Requested(c, r[i].Step())
  {
    if steps == [] then [] else Emit(c, steps[0]) + Select(c, steps[1..])
  }

  /** The action list of `imageCompositeProcess`: the pipeline filtered by the config. */
  function CompositeActions(c: Config): seq<Action> {
    Select(c, Pipeline)
  }

  /** The composite list, step kind by step kind. */
  lemma CompositeUnfolded(c: Config)
    ensures CompositeActions(c) ==
              Emit(c, FormatStep) + Emit(c, ResizeStep) + Emit(c, RotateStep) + Emit(c, WatermarkStep)
  {
    var s3: seq<Step> := [WatermarkStep];
    var s2: seq<Step> := [RotateStep, WatermarkStep];
    var s1: seq<Step> := [ResizeStep, RotateStep, WatermarkStep];
    SelectStep(c, s3);
    assert s3[1..] == [];
    SelectStep(c, s2);
    assert s2[1..] == s3;
    SelectStep(c, s1);
    assert s1[1..] == s2;
    SelectStep(c, Pipeline);
    assert Pipeline[1..] == s1;
    var e0, e1, e2, e3 := Emit(c, FormatStep), Emit(c, ResizeStep), Emit(c, RotateStep), Emit(c, WatermarkStep);
    assert Select(c, s3) == e3 + [];
    assert Select(c, Pipeline) == e0 + (e1 + (e2 + (e3 + [])));
    assert e3 + [] == e3;
    assert e0 + (e1 + (e2 + e3)) == e0 + e1 + e2 + e3;
  }

  /** One step of the filter: the head's emission, then the filtered tail. */
  lemma SelectStep(c: Config, steps: seq<Step>)
    requires steps != []
    ensures Select(c, steps) == Emit(c, steps[0]) + Select(c, steps[1..])
  {
  }

  /** `imageCompositeProcess` pushes one step after another onto an initially empty list. */
  method BuildCompositeActions(c: Config) returns (actions: seq<Action>)
    ensures actions == CompositeActions(c)
  {
    actions := [];
    if TruthyText(c.format) {
      actions := actions + [FormatAction(c.format.value)];
    }
    assert actions == Emit(c, FormatStep);
    if TruthyInt(c.width) || TruthyInt(c.height) {
      actions := actions + [ResizeAction(Finite(QualityOrDefault(c.quality)), PassThrough(c.width), PassThrough(c.height))];
    }
    assert actions == Emit(c, FormatStep) + Emit(c, ResizeStep);
    if TruthyInt(c.angle) {
      actions := actions + [RotateAction(Finite(c.angle.value))];
    }
    assert actions == Emit(c, FormatStep) + Emit(c, ResizeStep) + Emit(c, RotateStep);
    if TruthyText(c.watermarkText) {
      actions := actions + [Watermark(c.watermarkText.value)];
    }
    CompositeUnfolded(c);
  }

  /** The provider's `image` option: none at all for an empty list. */
  function ImageOption(actions: seq<Action>): (o: Option<seq<Action>>)
    ensures o.None? <==> actions == []
    ensures o.Some? ==> o.value == actions
  {
    if |actions| == 0 then None else Some(actions)
  }

  // ---------------------------------------------------------------------------
  // Properties of the composite list
  // ---------------------------------------------------------------------------

  predicate StrictlyRanked(steps: seq<Step>) {
    forall i, j :: 0 <= i < j < |steps| ==> steps[i].Rank() < steps[j].Rank()
  }

  /** Each step kind comes before every later kind of the pipeline. */
  predicate InPipelineOrder(actions: seq<Action>) {
    forall i, j :: 0 <= i < j < |actions| ==> actions[i].Step().Rank() < actions[j].Step().Rank()
  }

  /** The first action of kind `s`, if any. */
  function ActionFor(actions: seq<Action>, s: Step): (o: Option<Action>)
    ensures o.Some? ==> o.value in actions && o.value.Step() == s
    ensures o.None? <==> forall i :: 0 <= i < |actions| ==> actions[i].Step() != s
  {
    if actions == [] then None
    else if actions[0].Step() == s then Some(actions[0])
    else ActionFor(actions[1..], s)
  }

  /** In a strictly ranked list the first step outranks none of the later ones. */
  lemma HeadRanksFirst(steps: seq<Step>)
    requires steps != [] && StrictlyRanked(steps)
    ensures forall x :: x in steps[1..] ==> steps[0].Rank() < x.Rank()
  {
    forall x | x in steps[1..] ensures steps[0].Rank() < x.Rank() {
      var k :| 0 <= k < |steps[1..]| && steps[1..][k] == x;
      assert steps[k + 1] == x;
    }
  }

  lemma {:induction false} SelectInOrder(c: Config, steps: seq<Step>)
    requires StrictlyRanked(steps)
    ensures InPipelineOrder(Select(c, steps))
  {
    if steps != [] {
      var rest := Select(c, steps[1..]);
      SelectInOrder(c, steps[1..]);
      if Requested(c, steps[0]) {
        HeadRanksFirst(steps);
        var r := Select(c, steps);
        assert r == [StepAction(c, steps[0])] + rest;
        forall j | 0 < j < |r|
          ensures r[0].Step().Rank() < r[j].Step().Rank()
        {
          assert r[j] == rest[j - 1];
          assert r[j].Step() in steps[1..];
        }
      } else {
        assert Select(c, steps) == rest;
      }
    }
  }

  lemma PipelineRanked()
    ensures StrictlyRanked(Pipeline)
  {
    forall i | 0 <= i < |Pipeline| ensures Pipeline[i].Rank() == i {
    }
  }

  lemma {:induction false} SelectActionFor(c: Config, steps: seq<Step>, s: Step)
    requires StrictlyRanked(steps)
    ensures ActionFor(Select(c, steps), s) ==
              if s in steps && Requested(c, s) then Some(StepAction(c, s)) else None
  {
    if steps != [] {
      SelectActionFor(c, steps[1..], s);
      var rest := Select(c, steps[1..]);
      if s == steps[0] {
        forall k | 0 <= k < |steps[1..]| ensures steps[1..][k] != s {
          assert steps[0].Rank() < steps[k + 1].Rank();
        }
        if !Requested(c, s) {
          assert Select(c, steps) == rest;
        }
      } else {
        assert s in steps <==> s in steps[1..];
        if Requested(c, steps[0]) {
          assert Select(c, steps) == [StepAction(c, steps[0])] + rest;
          assert (Select(c, steps))[1..] == rest;
        } else {
          assert Select(c, steps) == rest;
        }
      }
    }
  }

  /** The composite list is in the order format, resize, rotate, watermark, so no kind
      occurs twice and it is a subsequence of that order. */
  lemma CompositeInOrder(c: Config)
    ensures InPipelineOrder(CompositeActions(c))
    ensures forall i, j :: 0 <= i < j < |CompositeActions(c)| ==>
              CompositeActions(c)[i].Step() != CompositeActions(c)[j].Step()
    ensures forall i, j :: 0 <= i < j < |CompositeActions(c)| ==>
              CompositeActions(c)[i].Name() != CompositeActions(c)[j].Name()
  {
    PipelineRanked();
    SelectInOrder(c, Pipeline);
  }

  /** A step of kind `s` is in the composite list exactly when the config requests it,
      and it is then the one `StepAction` describes. */
  lemma CompositeActionFor(c: Config, s: Step)
    ensures ActionFor(CompositeActions(c), s) == if Requested(c, s) then Some(StepAction(c, s)) else None
  {
    PipelineRanked();
    assert s in Pipeline by {
      assert Pipeline[s.Rank()] == s;
    }
    SelectActionFor(c, Pipeline, s);
  }

  /** The list is empty exactly when every field is absent or falsy; the request is then
      forwarded without an `image` option. */
  lemma CompositeEmptyIff(c: Config)
    ensures CompositeActions(c) == [] <==>
              !TruthyText(c.format) && !TruthyInt(c.width) && !TruthyInt(c.height) &&
              !TruthyInt(c.angle) && !TruthyText(c.watermarkText)
    ensures ImageOption(CompositeActions(c)).None? <==> CompositeActions(c) == []
  {
    forall s | s in Pipeline ensures (ActionFor(CompositeActions(c), s).Some? <==> Requested(c, s)) {
      CompositeActionFor(c, s);
    }
    assert ActionFor(CompositeActions(c), FormatStep).Some? <==> Requested(c, FormatStep);
    assert ActionFor(CompositeActions(c), ResizeStep).Some? <==> Requested(c, ResizeStep);
    assert ActionFor(CompositeActions(c), RotateStep).Some? <==> Requested(c, RotateStep);
    assert ActionFor(CompositeActions(c), WatermarkStep).Some? <==> Requested(c, WatermarkStep);
  }

  /** `{}` yields no steps. */
  lemma EmptyConfigNoActions()
    ensures CompositeActions(EmptyConfig) == []
  {
    CompositeEmptyIff(EmptyConfig);
  }

  /** Composite resize: emitted iff width or height is truthy (0 counts as absent); mode
      is always "custom"; quality 0 or absent becomes 90; width and height are passed
      through as given, absent ones left out. */
  lemma CompositeResize(c: Config)
    ensures ActionFor(CompositeActions(c), ResizeStep).Some? <==> (TruthyInt(c.width) || TruthyInt(c.height))
    ensures ActionFor(CompositeActions(c), ResizeStep).Some? ==>
              var a := ActionFor(CompositeActions(c), ResizeStep).value;
              a.Mode() == Some("custom") &&
              a.p == Finite(if c.quality.None? || c.quality == Some(0) then 90 else c.quality.value) &&
              a.p.Truthy() &&
              (a.fw.None? <==> c.width.None?) && (c.width.Some? ==> a.fw == Some(Finite(c.width.value))) &&
              (a.fh.None? <==> c.height.None?) && (c.height.Some? ==> a.fh == Some(Finite(c.height.value)))
  {
    CompositeActionFor(c, ResizeStep);
  }

  /** Composite rotate: emitted iff the angle is non-zero, with that angle. */
  lemma CompositeRotate(c: Config)
    ensures ActionFor(CompositeActions(c), RotateStep).Some? <==> (c.angle.Some? && c.angle.value != 0)
    ensures ActionFor(CompositeActions(c), RotateStep).Some? ==>
              ActionFor(CompositeActions(c), RotateStep).value == RotateAction(Finite(c.angle.value)) &&
              ActionFor(CompositeActions(c), RotateStep).value.Mode() == Some("custom")
  {
    CompositeActionFor(c, RotateStep);
  }

  /** Composite watermark: emitted iff the text is non-empty, always with font size 16,
      colour #ffffff80, offsets 10/10, rotation 30 and mode "text". */
  lemma CompositeWatermark(c: Config)
    ensures ActionFor(CompositeActions(c), WatermarkStep).Some? <==> (c.watermarkText.Some? && c.watermarkText.value != "")
    ensures ActionFor(CompositeActions(c), WatermarkStep).Some? ==>
              var a := ActionFor(CompositeActions(c), WatermarkStep).value;
              a.Mode() == Some("text") && a.text == c.watermarkText.value &&
              a.fontSize == 16 && a.color == "#ffffff80" && a.dx == 10 && a.dy == 10 && a.rotate == 30
  {
    CompositeActionFor(c, WatermarkStep);
  }

  /** Composite format: emitted iff the format is non-empty, carrying it as `f`. */
  lemma CompositeFormat(c: Config)
    ensures ActionFor(CompositeActions(c), FormatStep).Some? <==> (c.format.Some? && c.format.value != "")
    ensures ActionFor(CompositeActions(c), FormatStep).Some? ==>
              ActionFor(CompositeActions(c), FormatStep).value == FormatAction(c.format.value) &&
              ActionFor(CompositeActions(c), FormatStep).value.Mode() == None
  {
    CompositeActionFor(c, FormatStep);
  }

  /** Each single-operation builder gives what the composite builder gives for a config
      holding only the matching field (for values both treat as present). */
  lemma SingleMatchesComposite(format: string, width: int, height: int, quality: int, angle: int, text: string)
    ensures format != "" ==> FormatActions(format) == CompositeActions(EmptyConfig.(format := Some(format)))
    ensures width != 0 && height != 0 && quality != 0 ==>
              ResizeActions(Finite(width), Finite(height), Finite(quality)) ==
              CompositeActions(EmptyConfig.(width := Some(width), height := Some(height), quality := Some(quality)))
    ensures angle != 0 ==> RotateActions(Finite(angle)) == CompositeActions(EmptyConfig.(angle := Some(angle)))
    ensures text != "" ==> WatermarkActions(text) == CompositeActions(EmptyConfig.(watermarkText := Some(text)))
  {
    CompositeUnfolded(EmptyConfig.(format := Some(format)));
    CompositeUnfolded(EmptyConfig.(width := Some(width), height := Some(height), quality := Some(quality)));
    CompositeUnfolded(EmptyConfig.(angle := Some(angle)));
    CompositeUnfolded(EmptyConfig.(watermarkText := Some(text)));
  }

  /** Where the two resize builders part: a width of 0 beside a non-zero height is left
      out by the single-operation builder but sent as `fw: 0` by the composite one. */
  lemma ZeroWidthDiffers(height: int, quality: int)
    requires height != 0 && quality != 0
    ensures ResizeActions(Finite(0), Finite(height), Finite(quality)) ==
              [ResizeAction(Finite(quality), None, Some(Finite(height)))]
    ensures CompositeActions(EmptyConfig.(width := Some(0), height := Some(height), quality := Some(quality))) ==
              [ResizeAction(Finite(quality), Some(Finite(0)), Some(Finite(height)))]
  {
    CompositeUnfolded(EmptyConfig.(width := Some(0), height := Some(height), quality := Some(quality)));
  }

  /** `{format: "jpeg", width: 200}` gives a format step then a resize step at quality 90. */
  lemma ScenarioFormatThenResize()
    ensures CompositeActions(EmptyConfig.(format := Some("jpeg"), width := Some(200))) ==
              [FormatAction("jpeg"), ResizeAction(Finite(90), Some(Finite(200)), None)]
  {
    assert Pipeline[1..][1..][1..][1..] == [];
  }

  /** `{angle: 90, watermarkText: "draft"}` gives a rotate step then a watermark step. */
  lemma ScenarioRotateThenWatermark()
    ensures CompositeActions(EmptyConfig.(angle := Some(90), watermarkText := Some("draft"))) ==
              [RotateAction(Finite(90)), WatermarkAction("draft", 16, "#ffffff80", 10, 10, 30)]
  {
    assert Pipeline[1..][1..][1..][1..] == [];
  }
}
