/**
 * The adjustment editor: a record of eight adjustments, the pure update
 * rules behind its sliders and buttons, the filter string compiled from it,
 * and the busy-flag-guarded redraw of its canvas.
 */
module ImageEditor {
  import opened Wrappers
  import opened Strings
  import opened Canvas

  // ---------------------------------------------------------------------
  // The adjustment record and its update rules
  // ---------------------------------------------------------------------

  /**
   * The editor's adjustments. The three percentages and the blur radius
   * come from sliders; the rotation is only ever changed by the rotate and
   * reset buttons, so it is never negative.
   */
  datatype FilterState = FilterState(
    brightness: int,
    contrast: int,
    saturation: int,
    blur: int,
    rotation: nat,
    sepia: bool,
    grayscale: bool,
    invert: bool)

  /** The state every editor starts from and that reset returns to. */
  const Initial := FilterState(100, 100, 100, 0, 0, false, false, false)

  /** The four sliders, named as they are passed to the change handler. */
  datatype Slider = Brightness | Contrast | Saturation | Blur

  /** The three on/off effects. */
  datatype Toggle = Sepia | Grayscale | Invert

  /** The largest value a slider offers; every slider starts at 0. */
  function SliderMax(s: Slider): nat {
    if s == Blur then 20 else 200
  }

  function SliderValue(f: FilterState, s: Slider): int {
    match s
    case Brightness => f.brightness
    case Contrast => f.contrast
    case Saturation => f.saturation
    case Blur => f.blur
  }

  function IsOn(f: FilterState, t: Toggle): bool {
    match t
    case Sepia => f.sepia
    case Grayscale => f.grayscale
    case Invert => f.invert
  }

  /** The rotations reachable by quarter turns from 0. */
  predicate IsQuarterTurn(r: nat) {
    r == 0 || r == 90 || r == 180 || r == 270
  }

  /** Every field within the range its control allows. */
  predicate InDomain(f: FilterState) {
    && (forall s: Slider :: 0 <= SliderValue(f, s) <= SliderMax(s))
    && IsQuarterTurn(f.rotation)
  }

  /** `handleFilterChange(type, value)`: set one slider's field to the value given. */
  function ChangeFilter(f: FilterState, s: Slider, v: int): (r: FilterState)
    ensures SliderValue(r, s) == v
    ensures forall t: Slider :: t != s ==> SliderValue(r, t) == SliderValue(f, t)
    ensures forall t: Toggle :: IsOn(r, t) == IsOn(f, t)
    ensures r.rotation == f.rotation
  {
    match s
    case Brightness => f.(brightness := v)
    case Contrast => f.(contrast := v)
    case Saturation => f.(saturation := v)
    case Blur => f.(blur := v)
  }

  /** `handleToggleEffect(effect)`: negate one flag. */
  function ToggleEffect(f: FilterState, t: Toggle): (r: FilterState)
    ensures IsOn(r, t) == !IsOn(f, t)
    ensures forall u: Toggle :: u != t ==> IsOn(r, u) == IsOn(f, u)
    ensures forall s: Slider :: SliderValue(r, s) == SliderValue(f, s)
    ensures r.rotation == f.rotation
  {
    match t
    case Sepia => f.(sepia := !f.sepia)
    case Grayscale => f.(grayscale := !f.grayscale)
    case Invert => f.(invert := !f.invert)
  }

  /** `handleRotate`: a quarter turn clockwise, kept below a full turn. */
  function RotateQuarter(f: FilterState): FilterState {
    f.(rotation := (f.rotation + 90) % 360)
  }

  /** `handleReset`: back to the initial adjustments, whatever came before. */
  function Reset(f: FilterState): FilterState {
    Initial
  }

  lemma InitialInDomain()
    ensures InDomain(Initial) && Initial.rotation == 0
    ensures forall s: Slider :: SliderValue(Initial, s) == if s == Blur then 0 else 100
    ensures forall t: Toggle :: !IsOn(Initial, t)
  {
  }

  /** A value the slider offers keeps the record within its domain. */
  lemma ChangeFilterInDomain(f: FilterState, s: Slider, v: int)
    requires InDomain(f)
    requires 0 <= v <= SliderMax(s)
    ensures InDomain(ChangeFilter(f, s, v))
  {
  }

  lemma ToggleEffectInDomain(f: FilterState, t: Toggle)
    requires InDomain(f)
    ensures InDomain(ToggleEffect(f, t))
  {
  }

  /** Toggling the same flag twice restores the state. */
  lemma ToggleTwice(f: FilterState, t: Toggle)
    ensures ToggleEffect(ToggleEffect(f, t), t) == f
  {
  }

  /** A quarter turn keeps the rotation a quarter turn and changes nothing else. */
  lemma RotateQuarterInDomain(f: FilterState)
    requires InDomain(f)
    ensures InDomain(RotateQuarter(f))
    ensures RotateQuarter(f).(rotation := f.rotation) == f
  {
    assert forall s: Slider :: SliderValue(RotateQuarter(f), s) == SliderValue(f, s);
  }

  /** `n` presses of the rotate button. */
  function RotateTimes(f: FilterState, n: nat): FilterState {
    if n == 0 then f else RotateQuarter(RotateTimes(f, n - 1))
  }

  lemma QuarterTurnMod(x: int)
    ensures (x % 360 + 90) % 360 == (x + 90) % 360
  {
  }

  /** After `n` quarter turns the rotation is the start plus `n` quarters, modulo a full turn. */
  lemma {:induction false} RotateTimesRotation(f: FilterState, n: nat)
    requires f.rotation < 360
    ensures RotateTimes(f, n).rotation == (f.rotation + 90 * n) % 360
    ensures RotateTimes(f, n).(rotation := f.rotation) == f
  {
    if n > 0 {
      RotateTimesRotation(f, n - 1);
      QuarterTurnMod(f.rotation + 90 * (n - 1));
    }
  }

  lemma QuarterTurnsModulo(n: nat)
    ensures (90 * n) % 360 == 90 * (n % 4)
  {
    var q, r := n / 4, n % 4;
    assert 90 * n == 360 * q + 90 * r;
    assert 0 <= 90 * r < 360;
  }

  /** Starting from no rotation, the rotation is always a quarter turn. */
  lemma RotationFromInitial(n: nat)
    ensures IsQuarterTurn(RotateTimes(Initial, n).rotation)
    ensures InDomain(RotateTimes(Initial, n))
  {
    RotateTimesRotation(Initial, n);
    QuarterTurnsModulo(n);
  }

  /** Four quarter turns return any state within the domain to itself. */
  lemma RotatePeriod(f: FilterState)
    requires f.rotation < 360
    ensures RotateTimes(f, 4) == f
  {
    RotateTimesRotation(f, 4);
  }

  /** Reset ignores the state it starts from, so resetting twice is resetting once. */
  lemma ResetIdempotent(f: FilterState, g: FilterState)
    ensures Reset(f) == Initial && InDomain(Reset(f))
    ensures Reset(Reset(f)) == Reset(g)
  {
  }

  // ---------------------------------------------------------------------
  // The filter string
  // ---------------------------------------------------------------------

  /** A line break of the template literal and the indentation of the next line. */
  const Break := "\n          "

  /** The same, after a line that ends in a blank. */
  const BlankBreak := " \n          "

  /** The line break and indentation before the closing back-tick. */
  const Closing := "\n        "

  /** A numeric token: `prefix`, then the number as interpolated, then `suffix`. */
  function NumberToken(prefix: string, v: int, suffix: string): string {
    prefix + IntToString(v) + suffix
  }

  function BrightnessToken(v: int): string { NumberToken("brightness(", v, "%)") }
  function ContrastToken(v: int): string { NumberToken("contrast(", v, "%)") }
  function SaturateToken(v: int): string { NumberToken("saturate(", v, "%)") }
  function BlurToken(v: int): string { NumberToken("blur(", v, "px)") }

  /** The token of a flag that is on, or the empty interpolation of one that is off. */
  function FlagToken(on: bool, token: string): string {
    if on then token else ""
  }

  /** One line of the template: the break before it, its token, and what follows. */
  function Line(lead: string, token: string, rest: string): string {
    lead + token + rest
  }

  /**
   * The template literal, character for character: a flag that is off
   * leaves its line empty, and the first two lines end in a blank.
   */
  function Compose(f: FilterState): string {
    Line(Break, BrightnessToken(f.brightness),
    Line(BlankBreak, ContrastToken(f.contrast),
    Line(BlankBreak, SaturateToken(f.saturation),
    Line(Break, BlurToken(f.blur),
    Line(Break, FlagToken(f.sepia, "sepia(100%)"),
    Line(Break, FlagToken(f.grayscale, "grayscale(100%)"),
    Line(Break, FlagToken(f.invert, "invert(100%)"),
    Closing)))))))
  }

  /** The four numeric filter functions, in the template's order. */
  function NumericTokens(f: FilterState): (t: seq<string>)
    ensures |t| == 4
  {
    [BrightnessToken(f.brightness), ContrastToken(f.contrast), SaturateToken(f.saturation), BlurToken(f.blur)]
  }

  /**
   * The filter functions the canvas receives, in order: the four numeric
   * ones always, then each effect that is on.
   */
  function ComposedTokens(f: FilterState): seq<string> {
    NumericTokens(f)
    + ((if f.sepia then ["sepia(100%)"] else [])
    + (if f.grayscale then ["grayscale(100%)"] else [])
    + (if f.invert then ["invert(100%)"] else []))
  }

  lemma NumberTokenNoSpace(prefix: string, v: int, suffix: string)
    requires NoSpace(prefix) && NoSpace(suffix)
    ensures NoSpace(NumberToken(prefix, v, suffix))
  {
    NoSpaceConcat(prefix, IntToString(v));
    NoSpaceConcat(prefix + IntToString(v), suffix);
  }

  /** A line contributes its token, if any, and starts with whitespace. */
  lemma LineTokens(lead: string, tok: string, rest: string)
    requires lead != [] && AllSpace(lead) && NoSpace(tok)
    requires rest == [] || IsSpace(rest[0])
    ensures Tokens(Line(lead, tok, rest)) == Opt(tok) + Tokens(rest)
    ensures IsSpace(Line(lead, tok, rest)[0])
  {
    TokensPiece(lead, tok, rest);
  }

  /** The three effect lines and the closing break: the tokens of the effects that are on. */
  lemma FlagLinesTokens(b1: string, c: string, x: string, y: string, z: string)
    requires b1 != [] && AllSpace(b1) && AllSpace(c)
    requires NoSpace(x) && NoSpace(y) && NoSpace(z)
    ensures Tokens(Line(b1, x, Line(b1, y, Line(b1, z, c)))) == Opt(x) + Opt(y) + Opt(z)
    ensures IsSpace(Line(b1, x, Line(b1, y, Line(b1, z, c)))[0])
  {
    TokensOfSpace(c);
    var r3 := Line(b1, z, c);
    LineTokens(b1, z, c);
    var r2 := Line(b1, y, r3);
    LineTokens(b1, y, r3);
    LineTokens(b1, x, r2);
    assert Opt(z) + [] == Opt(z);
  }

  /** Two lines with non-empty tokens ahead of some text that starts with a break. */
  lemma TwoLinesTokens(l1: string, t1: string, l2: string, t2: string, rest: string)
    requires l1 != [] && AllSpace(l1) && l2 != [] && AllSpace(l2)
    requires NoSpace(t1) && NoSpace(t2) && t1 != [] && t2 != []
    requires rest != [] && IsSpace(rest[0])
    ensures Tokens(Line(l1, t1, Line(l2, t2, rest))) == [t1, t2] + Tokens(rest)
    ensures IsSpace(Line(l1, t1, Line(l2, t2, rest))[0])
  {
    LineTokens(l2, t2, rest);
    LineTokens(l1, t1, Line(l2, t2, rest));
  }

  /** The four numeric lines ahead of some text that starts with a break. */
  lemma NumericLinesTokens(b1: string, b2: string, t0: string, t1: string, t2: string, t3: string, rest: string)
    requires b1 != [] && AllSpace(b1) && b2 != [] && AllSpace(b2)
    requires NoSpace(t0) && NoSpace(t1) && NoSpace(t2) && NoSpace(t3)
    requires t0 != [] && t1 != [] && t2 != [] && t3 != []
    requires rest != [] && IsSpace(rest[0])
    ensures Tokens(Line(b1, t0, Line(b2, t1, Line(b2, t2, Line(b1, t3, rest))))) == [t0, t1, t2, t3] + Tokens(rest)
  {
    var r := Line(b2, t2, Line(b1, t3, rest));
    TwoLinesTokens(b2, t2, b1, t3, rest);
    TwoLinesTokens(b1, t0, b2, t1, r);
    assert [t0, t1] + ([t2, t3] + Tokens(rest)) == [t0, t1, t2, t3] + Tokens(rest);
  }

  /**
   * Seven lines, each a break and a token that may be empty, then a closing
   * break: the tokens are the non-empty ones, in order.
   */
  lemma SevenLinesTokens(b1: string, b2: string, c: string, t: seq<string>)
    requires |t| == 7
    requires b1 != [] && AllSpace(b1) && b2 != [] && AllSpace(b2) && AllSpace(c)
    requires forall i :: 0 <= i < 7 ==> NoSpace(t[i])
    requires forall i :: 0 <= i < 4 ==> t[i] != []
    ensures Tokens(Line(b1, t[0], Line(b2, t[1], Line(b2, t[2], Line(b1, t[3],
              Line(b1, t[4], Line(b1, t[5], Line(b1, t[6], c))))))))
         == t[..4] + (Opt(t[4]) + Opt(t[5]) + Opt(t[6]))
  {
    var flags := Line(b1, t[4], Line(b1, t[5], Line(b1, t[6], c)));
    FlagLinesTokens(b1, c, t[4], t[5], t[6]);
    NumericLinesTokens(b1, b2, t[0], t[1], t[2], t[3], flags);
    assert t[..4] == [t[0], t[1], t[2], t[3]];
  }

  /** `[x]` for a non-empty `x`, nothing for an empty one. */
  function Opt(x: string): seq<string> {
    if x == [] then [] else [x]
  }

  lemma BreaksAreSpace()
    ensures AllSpace(Break) && AllSpace(BlankBreak) && AllSpace(Closing)
  {
  }

  /** The seven interpolations of the template, in order. */
  function Interpolations(f: FilterState): (t: seq<string>)
    ensures |t| == 7
  {
    NumericTokens(f)
    + [FlagToken(f.sepia, "sepia(100%)"), FlagToken(f.grayscale, "grayscale(100%)"), FlagToken(f.invert, "invert(100%)")]
  }

  lemma AffixesNoSpace()
    ensures NoSpace("brightness(") && NoSpace("contrast(") && NoSpace("saturate(") && NoSpace("blur(")
    ensures NoSpace("%)") && NoSpace("px)")
    ensures NoSpace("sepia(100%)") && NoSpace("grayscale(100%)") && NoSpace("invert(100%)") && NoSpace("")
  {
  }

  lemma InterpolationsNoSpace(f: FilterState)
    ensures forall i :: 0 <= i < 7 ==> NoSpace(Interpolations(f)[i])
  {
    AffixesNoSpace();
    NumberTokenNoSpace("brightness(", f.brightness, "%)");
    NumberTokenNoSpace("contrast(", f.contrast, "%)");
    NumberTokenNoSpace("saturate(", f.saturation, "%)");
    NumberTokenNoSpace("blur(", f.blur, "px)");
  }

  /** The non-blank tokens of the filter string are exactly the composed tokens. */
  lemma ComposeTokens(f: FilterState)
    ensures Tokens(Compose(f)) == ComposedTokens(f)
  {
    BreaksAreSpace();
    InterpolationsNoSpace(f);
    SevenLinesTokens(Break, BlankBreak, Closing, Interpolations(f));
    InterpolationsMatch(f);
  }

  /** The numeric interpolations are never empty, and the non-empty ones are the composed tokens. */
  lemma InterpolationsMatch(f: FilterState)
    ensures var t := Interpolations(f);
      && (forall i :: 0 <= i < 4 ==> t[i] != [])
      && t[..4] + (Opt(t[4]) + Opt(t[5]) + Opt(t[6])) == ComposedTokens(f)
  {
    var t := Interpolations(f);
    assert t[..4] == NumericTokens(f);
  }

  /** Reads the three optional flag tokens back, in their fixed order. */
  function DecodeFlags(ts: seq<string>): Option<(bool, bool, bool)> {
    var sepia := ts != [] && ts[0] == "sepia(100%)";
    var ts1 := if sepia then ts[1..] else ts;
    var grayscale := ts1 != [] && ts1[0] == "grayscale(100%)";
    var ts2 := if grayscale then ts1[1..] else ts1;
    var invert := ts2 != [] && ts2[0] == "invert(100%)";
    var ts3 := if invert then ts2[1..] else ts2;
    if ts3 == [] then Some((sepia, grayscale, invert)) else None
  }

  /** Reads an adjustment record back from the filter functions of a string. */
  function DecodeTokens(ts: seq<string>): Option<FilterState> {
    if |ts| < 4 then None
    else
      match (ParseWrappedInt(ts[0], "brightness(", "%)"), ParseWrappedInt(ts[1], "contrast(", "%)"),
             ParseWrappedInt(ts[2], "saturate(", "%)"), ParseWrappedInt(ts[3], "blur(", "px)"), DecodeFlags(ts[4..]))
      case (Some(b), Some(c), Some(sat), Some(bl), Some((sep, gray, inv))) =>
        Some(FilterState(b, c, sat, bl, 0, sep, gray, inv))
      case _ => None
  }

  /**
   * Reads an adjustment record back from a filter string. The rotation is
   * not part of the string (it is applied as a transformation), so it reads
   * back as 0.
   */
  function DecodeFilter(s: string): Option<FilterState> {
    DecodeTokens(Tokens(s))
  }

  /** The effect tokens read back as the three flags. */
  lemma DecodeFlagsOf(sepia: bool, grayscale: bool, invert: bool)
    ensures DecodeFlags((if sepia then ["sepia(100%)"] else [])
      + (if grayscale then ["grayscale(100%)"] else [])
      + (if invert then ["invert(100%)"] else [])) == Some((sepia, grayscale, invert))
  {
    assert "sepia(100%)"[0] == 's' && "grayscale(100%)"[0] == 'g' && "invert(100%)"[0] == 'i';
  }

  /** The numeric tokens read back as the four slider values. */
  lemma ParseNumericTokens(f: FilterState)
    ensures var n := NumericTokens(f);
      && ParseWrappedInt(n[0], "brightness(", "%)") == Some(f.brightness)
      && ParseWrappedInt(n[1], "contrast(", "%)") == Some(f.contrast)
      && ParseWrappedInt(n[2], "saturate(", "%)") == Some(f.saturation)
      && ParseWrappedInt(n[3], "blur(", "px)") == Some(f.blur)
  {
    ParseWrappedIntToString("brightness(", f.brightness, "%)");
    ParseWrappedIntToString("contrast(", f.contrast, "%)");
    ParseWrappedIntToString("saturate(", f.saturation, "%)");
    ParseWrappedIntToString("blur(", f.blur, "px)");
  }

  /** The filter string carries every adjustment except the rotation. */
  lemma DecodeCompose(f: FilterState)
    ensures DecodeFilter(Compose(f)) == Some(f.(rotation := 0))
  {
    ComposeTokens(f);
    var ts := ComposedTokens(f);
    var flags := (if f.sepia then ["sepia(100%)"] else [])
      + (if f.grayscale then ["grayscale(100%)"] else [])
      + (if f.invert then ["invert(100%)"] else []);
    assert ts == NumericTokens(f) + flags;
    assert ts[..4] == NumericTokens(f) && ts[4..] == flags;
    ParseNumericTokens(f);
    DecodeFlagsOf(f.sepia, f.grayscale, f.invert);
  }

  /**
   * Two records compile to the same filter string
   * exactly when they agree on everything but the rotation.
   */
  lemma ComposeInjective(f: FilterState, g: FilterState)
    ensures Compose(f) == Compose(g) <==> f.(rotation := 0) == g.(rotation := 0)
  {
    if Compose(f) == Compose(g) {
      DecodeCompose(f);
      DecodeCompose(g);
    }
  }

  lemma NumberTokenHead(prefix: string, v: int, suffix: string)
    requires |prefix| >= 2
    ensures NumberToken(prefix, v, suffix)[..2] == prefix[..2]
  {
  }

  /** No numeric token can be mistaken for an effect's token. */
  lemma NumericTokensNoFlag(f: FilterState)
    ensures forall i :: 0 <= i < 4 ==> NumericTokens(f)[i][..2] in {"br", "co", "sa", "bl"}
  {
    NumberTokenHead("brightness(", f.brightness, "%)");
    NumberTokenHead("contrast(", f.contrast, "%)");
    NumberTokenHead("saturate(", f.saturation, "%)");
    NumberTokenHead("blur(", f.blur, "px)");
    assert "brightness("[..2] == "br" && "contrast("[..2] == "co" && "saturate("[..2] == "sa" && "blur("[..2] == "bl";
  }

  /** Each effect's token is present exactly when that effect is on. */
  lemma FlagTokenPresent(f: FilterState)
    ensures "sepia(100%)" in ComposedTokens(f) <==> f.sepia
    ensures "grayscale(100%)" in ComposedTokens(f) <==> f.grayscale
    ensures "invert(100%)" in ComposedTokens(f) <==> f.invert
  {
    var n := NumericTokens(f);
    NumericTokensNoFlag(f);
    assert "sepia(100%)"[..2] == "se" && "grayscale(100%)"[..2] == "gr" && "invert(100%)"[..2] == "in";
    assert "sepia(100%)" !in n && "grayscale(100%)" !in n && "invert(100%)" !in n;
  }

  // ---------------------------------------------------------------------
  // The editor component: busy flag and canvas redraw
  // ---------------------------------------------------------------------

  /** The transformation that turns the drawing about the centre of a w-by-h canvas. */
  function RotationTransform(w: nat, h: nat, degrees: int): seq<TransformOp> {
    if degrees != 0 then
      [Translate(w as real / 2.0, h as real / 2.0), Rotate(degrees), Translate(-(w as real / 2.0), -(h as real / 2.0))]
    else []
  }

  /** The calls that apply that transformation. */
  function RotationCalls(w: nat, h: nat, degrees: int): seq<Call> {
    if degrees != 0 then
      [TranslateBy(w as real / 2.0, h as real / 2.0), RotateBy(degrees), TranslateBy(-(w as real / 2.0), -(h as real / 2.0))]
    else []
  }

  /**
   * The calls the deferred draw makes on a w-by-h canvas. Without a loaded
   * image the call to draw it throws, so the trace stops after the filter
   * is set and the saved state is never restored.
   */
  function RedrawCalls(w: nat, h: nat, f: FilterState, image: Option<Bitmap>): seq<Call> {
    PrepareCalls(w, h, f) + (if image.Some? then [DrawImage(image.value, 0, 0), Restore] else [])
  }

  /** The calls made before the image is drawn. */
  function PrepareCalls(w: nat, h: nat, f: FilterState): seq<Call> {
    [ClearRect(0, 0, w, h), Save] + RotationCalls(w, h, f.rotation) + [SetFilter(Compose(f))]
  }

  class Editor {
    var filters: FilterState
    /** Set while a redraw is scheduled or running. */
    var isProcessing: bool
    /** The decoded original, once it has loaded. */
    var image: Option<Bitmap>
    /** The deferred draw scheduled by `ApplyFilters`, with the adjustments it captured. */
    var task: Option<FilterState>
    const canvas: Surface

    /** The canvas context is back at its identity transformation with nothing saved. */
    predicate Balanced()
      reads canvas
    {
      canvas.stack == [] && canvas.state.transform == []
    }

    /** A draw threw: the editor stays busy with nothing scheduled. */
    predicate Stuck()
      reads this
    {
      isProcessing && task.None?
    }

    ghost predicate Valid()
      reads this, canvas
    {
      && (task.Some? ==> isProcessing)
      && (!Stuck() ==> Balanced())
    }

    /**
     * The component's first render: initial adjustments, not busy, no
     * image yet, a blank canvas. The effect that runs on mount is
     * `ApplyFilters`.
     */
    constructor ()
      ensures Valid() && fresh(canvas)
      ensures filters == Initial && !isProcessing && image == None && task == None
      ensures canvas.layers == [] && canvas.calls == []
    {
      filters := Initial;
      isProcessing := false;
      image := None;
      task := None;
      canvas := new Surface();
    }

    /**
     * The image's load event: the canvas takes the image's size (which
     * resets its context) and the image is drawn unfiltered.
     */
    method OnImageLoad(img: Bitmap)
      requires Valid()
      modifies this, canvas
      ensures Valid()
      ensures image == Some(img)
      ensures filters == old(filters) && isProcessing == old(isProcessing) && task == old(task)
      ensures canvas.width == img.width && canvas.height == img.height
      ensures canvas.state == DefaultState && canvas.stack == []
      ensures canvas.layers == [Drawn(img, 0, 0, "none", [])]
      ensures canvas.calls == old(canvas.calls) + [SetWidth(img.width), SetHeight(img.height), DrawImage(img, 0, 0)]
    {
      canvas.SetWidthTo(img.width);
      canvas.SetHeightTo(img.height);
      image := Some(img);
      canvas.DrawImageAt(img, 0, 0);
    }

    /**
     * After asking for a redraw: the editor is busy, and a draw of the
     * current adjustments is scheduled unless one was already in flight,
     * in which case the request was dropped.
     */
    ghost predicate RedrawRequested(wasBusy: bool, previous: Option<FilterState>)
      reads this
    {
      isProcessing && task == (if wasBusy then previous else Some(filters))
    }

    /**
     * `applyFilters`: does nothing while busy; otherwise becomes busy and
     * schedules a draw of the adjustments as they are now.
     */
    method ApplyFilters()
      requires Valid()
      modifies this`isProcessing, this`task
      ensures Valid()
      ensures RedrawRequested(old(isProcessing), old(task))
    {
      if isProcessing {
        return;
      }
      isProcessing := true;
      task := Some(filters);
    }

    /**
     * The deferred draw: clear, save, rotate about the centre when the
     * captured rotation is not 0, set the compiled filter, draw, restore,
     * and then leave the busy state. Save and restore are balanced, so the
     * context state afterwards is the state before, and the visible surface
     * is one draw of the image under the captured adjustments. Without a
     * loaded image the draw throws: the editor stays busy for good.
     */
    method RunScheduledDraw()
      requires Valid() && task.Some?
      modifies this`isProcessing, this`task, canvas
      ensures Valid()
      ensures task == None && filters == old(filters) && image == old(image)
      ensures canvas.width == old(canvas.width) && canvas.height == old(canvas.height)
      ensures canvas.calls == old(canvas.calls) + RedrawCalls(old(canvas.width), old(canvas.height), old(task).value, image)
      ensures image.Some? ==>
        && !isProcessing
        && canvas.state == old(canvas.state) && canvas.stack == old(canvas.stack)
        && canvas.layers == [Drawn(image.value, 0, 0, Compose(old(task).value),
                                   RotationTransform(canvas.width, canvas.height, old(task).value.rotation))]
      ensures image.None? ==>
        && isProcessing
        && canvas.stack == old(canvas.stack) + [old(canvas.state)]
        && canvas.layers == []
    {
      var f := task.value;
      ghost var c0, s0 := canvas.calls, canvas.state;
      ghost var prepared := PrepareCalls(canvas.width, canvas.height, f);
      PrepareDraw(f);
      task := None;
      if image.None? {
        assert RedrawCalls(canvas.width, canvas.height, f, image) == prepared + [];
        return;
      }
      canvas.DrawImageAt(image.value, 0, 0);
      canvas.RestoreState();
      assert canvas.calls == c0 + (prepared + [DrawImage(image.value, 0, 0), Restore]);
      isProcessing := false;
    }

    /**
     * The part of the draw before the image: clear the whole canvas, save
     * the context, rotate it about the centre, and set the compiled filter.
     */
    method PrepareDraw(f: FilterState)
      requires Balanced()
      modifies canvas
      ensures canvas.width == old(canvas.width) && canvas.height == old(canvas.height)
      ensures canvas.layers == [] && canvas.stack == [old(canvas.state)]
      ensures canvas.state == DrawState(RotationTransform(canvas.width, canvas.height, f.rotation), Compose(f))
      ensures canvas.calls == old(canvas.calls) + PrepareCalls(canvas.width, canvas.height, f)
    {
      var w, h := canvas.width, canvas.height;
      ghost var c0 := canvas.calls;
      canvas.ClearRectAt(0, 0, w, h);
      canvas.SaveState();
      assert canvas.calls == c0 + [ClearRect(0, 0, w, h), Save];
      RotateAboutCentre(w, h, f.rotation);
      canvas.SetFilterTo(Compose(f));
      assert canvas.calls == c0 + ([ClearRect(0, 0, w, h), Save] + RotationCalls(w, h, f.rotation) + [SetFilter(Compose(f))]);
    }

    /** Turns the context about the centre of a w-by-h canvas, unless the angle is 0. */
    method RotateAboutCentre(w: nat, h: nat, degrees: int)
      modifies canvas
      ensures canvas.width == old(canvas.width) && canvas.height == old(canvas.height)
      ensures canvas.layers == old(canvas.layers) && canvas.stack == old(canvas.stack)
      ensures canvas.state == old(canvas.state).(transform := old(canvas.state).transform + RotationTransform(w, h, degrees))
      ensures canvas.calls == old(canvas.calls) + RotationCalls(w, h, degrees)
    {
      if degrees != 0 {
        canvas.TranslateTo(w as real / 2.0, h as real / 2.0);
        canvas.RotateTo(degrees);
        canvas.TranslateTo(-(w as real / 2.0), -(h as real / 2.0));
      }
    }

    /**
     * A slider moved. Sliders are disabled while busy, so this is only
     * called when idle; the change is always drawn.
     */
    method HandleFilterChange(s: Slider, v: int)
      requires Valid() && !isProcessing
      modifies this`filters, this`isProcessing, this`task
      ensures Valid()
      ensures filters == ChangeFilter(old(filters), s, v)
      ensures isProcessing && task == Some(filters)
    {
      filters := ChangeFilter(filters, s, v);
      ApplyFilters();
    }

    /**
     * An effect button was pressed. These buttons stay enabled while busy,
     * and a change made then is not scheduled for drawing.
     */
    method HandleToggleEffect(t: Toggle)
      requires Valid()
      modifies this`filters, this`isProcessing, this`task
      ensures Valid()
      ensures filters == ToggleEffect(old(filters), t)
      ensures RedrawRequested(old(isProcessing), old(task))
    {
      filters := ToggleEffect(filters, t);
      ApplyFilters();
    }

    /** The rotate button, also enabled while busy. */
    method HandleRotate()
      requires Valid()
      modifies this`filters, this`isProcessing, this`task
      ensures Valid()
      ensures filters == RotateQuarter(old(filters))
      ensures RedrawRequested(old(isProcessing), old(task))
    {
      filters := RotateQuarter(filters);
      ApplyFilters();
    }

    /** The reset button, disabled while busy: one redraw of the initial adjustments. */
    method HandleReset()
      requires Valid() && !isProcessing
      modifies this`filters, this`isProcessing, this`task
      ensures Valid()
      ensures filters == Initial
      ensures isProcessing && task == Some(Initial)
    {
      filters := Reset(filters);
      ApplyFilters();
    }
  }
}
