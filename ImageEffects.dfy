/**
 * The preset-effects panel: a closed catalog of six named filter presets,
 * the canvas filter expression built from the selected preset and an
 * intensity, and the guarded redraw that sizes the canvas to the image
 * before drawing it under that expression.
 */
module ImageEffects {
  import opened Wrappers
  import opened Strings
  import opened Canvas

  // ---------------------------------------------------------------------
  // The catalog
  // ---------------------------------------------------------------------

  /** A preset: the name on its button and the filter functions it stands for. */
  datatype Preset = Preset(name: string, filter: string)

  const Vintage := Preset("Vintage", "sepia(0.5) contrast(1.2)")
  const Dramatic := Preset("Dramatic", "contrast(1.4) saturate(1.4) brightness(0.9)")
  const Vivid := Preset("Vivid", "saturate(2) contrast(1.1)")
  const Cool := Preset("Cool", "saturate(0.8) hue-rotate(30deg)")
  const Warm := Preset("Warm", "sepia(0.3) saturate(1.3) hue-rotate(-30deg)")
  const Noir := Preset("Noir", "grayscale(1) contrast(1.4) brightness(0.9)")

  /** The presets in the order their buttons are laid out. */
  const Catalog: seq<Preset> := [Vintage, Dramatic, Vivid, Cool, Warm, Noir]

  /** The catalog is closed: six presets, in this order. */
  lemma CatalogShape()
    ensures |Catalog| == 6
    ensures Catalog[0].name == "Vintage" && Catalog[1].name == "Dramatic" && Catalog[2].name == "Vivid"
    ensures Catalog[3].name == "Cool" && Catalog[4].name == "Warm" && Catalog[5].name == "Noir"
  {
  }

  /** The lengths and first letters of the name and the filter: already different for any two presets. */
  function Key(p: Preset): ((nat, char), (nat, char))
    requires p.name != [] && p.filter != []
  {
    ((|p.name|, p.name[0]), (|p.filter|, p.filter[0]))
  }

  lemma KeysDistinct()
    ensures forall p :: p in Catalog ==> p.name != [] && p.filter != []
    ensures Key(Vintage) == ((7, 'V'), (24, 's')) && Key(Dramatic) == ((8, 'D'), (43, 'c'))
    ensures Key(Vivid) == ((5, 'V'), (25, 's')) && Key(Cool) == ((4, 'C'), (31, 's'))
    ensures Key(Warm) == ((4, 'W'), (43, 's')) && Key(Noir) == ((4, 'N'), (42, 'g'))
  {
    assert |Vintage.name| == 7 && |Vintage.filter| == 24;
    assert |Dramatic.name| == 8 && |Dramatic.filter| == 43;
    assert |Vivid.name| == 5 && |Vivid.filter| == 25;
    assert |Cool.name| == 4 && |Cool.filter| == 31;
    assert |Warm.name| == 4 && |Warm.filter| == 43;
    assert |Noir.name| == 4 && |Noir.filter| == 42;
    assert Vintage.filter[0] == 's' && Dramatic.filter[0] == 'c' && Vivid.filter[0] == 's';
    assert Cool.filter[0] == 's' && Warm.filter[0] == 's' && Noir.filter[0] == 'g';
    forall p | p in Catalog ensures p.name != [] && p.filter != [] {
    }
  }

  /** No two presets share a name or a filter. */
  lemma CatalogDistinct()
    ensures forall i, j :: 0 <= i < j < |Catalog| ==> Catalog[i].name != Catalog[j].name
    ensures forall i, j :: 0 <= i < j < |Catalog| ==> Catalog[i].filter != Catalog[j].filter
  {
    KeysDistinct();
    forall i, j | 0 <= i < j < |Catalog|
      ensures Catalog[i].name != Catalog[j].name && Catalog[i].filter != Catalog[j].filter
    {
      assert Key(Catalog[i]).0 != Key(Catalog[j]).0 && Key(Catalog[i]).1 != Key(Catalog[j]).1;
    }
  }

  /** Catalog entries are told apart by their names. */
  lemma CatalogNamesIdentify(p: Preset, q: Preset)
    requires p in Catalog && q in Catalog
    ensures p.name == q.name <==> p == q
    ensures p.filter == q.filter <==> p == q
  {
    CatalogDistinct();
    var i :| 0 <= i < |Catalog| && Catalog[i] == p;
    var j :| 0 <= j < |Catalog| && Catalog[j] == q;
    if i < j {
      assert p.name != q.name && p.filter != q.filter;
    } else if j < i {
      assert q.name != p.name && q.filter != p.filter;
    }
  }

  // ---------------------------------------------------------------------
  // The filter expression
  // ---------------------------------------------------------------------

  /** What follows the preset's filter: the intensity as an opacity. */
  function OpacityToken(intensity: int): (t: string)
    ensures t != [] && NoSpace(t)
  {
    var t := "opacity(" + IntToString(intensity) + "%)";
    assert NoSpace("opacity(") && NoSpace("%)");
    NoSpaceConcat("opacity(", IntToString(intensity));
    NoSpaceConcat("opacity(" + IntToString(intensity), "%)");
    t
  }

  /**
   * The canvas filter: `none` with no preset selected, otherwise the
   * preset's filter, a blank, and the intensity as an opacity.
   */
  function Expression(selected: Option<Preset>, intensity: int): (e: string)
    ensures selected.None? ==> e == "none"
    ensures selected.Some? ==> StartsWith(e, selected.value.filter)
    ensures selected.Some? ==> EndsWith(e, [' '] + OpacityToken(intensity))
  {
    match selected
    case None => "none"
    case Some(p) => p.filter + " " + OpacityToken(intensity)
  }

  /** The filter functions of an expression: the preset's own, then the opacity. */
  lemma ExpressionTokens(p: Preset, intensity: int)
    ensures Tokens(Expression(Some(p), intensity)) == Tokens(p.filter) + [OpacityToken(intensity)]
  {
    var op := OpacityToken(intensity);
    var tail := [' '] + op;
    assert Expression(Some(p), intensity) == p.filter + tail;
    TokensConcat(p.filter, tail);
    assert AllSpace([' ']);
    TokensPiece([' '], op, []);
    assert [' '] + op + [] == tail;
  }

  /** Reads an expression back as the preset's filter text and the intensity. */
  function DecodeExpression(e: string): (r: Option<(string, int)>)
    ensures r.Some? ==> ' ' in e
  {
    var last := LastSegment(e, ' ');
    if |last| < |e| then
      match ParseWrappedInt(last, "opacity(", "%)")
      case Some(i) => Some((e[..|e| - |last| - 1], i))
      case None => None
    else None
  }

  /** An expression with a preset gives back exactly that preset's filter and the intensity. */
  lemma DecodeExpressionOf(p: Preset, intensity: int)
    ensures DecodeExpression(Expression(Some(p), intensity)) == Some((p.filter, intensity))
  {
    var e := Expression(Some(p), intensity);
    var n := IntToString(intensity);
    var op := OpacityToken(intensity);
    assert op == "opacity(" + n + "%)";
    assert ' ' !in op by {
      assert NoSpace(op);
      forall k | 0 <= k < |op| ensures op[k] != ' ' {
        assert !IsSpace(op[k]);
      }
    }
    LastSegmentAfter(p.filter, ' ', op);
    assert e[..|e| - |op| - 1] == p.filter;
    ParseWrappedIntToString("opacity(", intensity, "%)");
  }

  /** `none` reads back as no effect at all. */
  lemma DecodeNone()
    ensures DecodeExpression(Expression(None, 100)) == None
  {
    assert ' ' !in "none";
  }

  /**
   * Over the catalog, the expression determines the selection and, when a
   * preset is selected, the intensity.
   */
  lemma ExpressionInjective(s: Option<Preset>, i: int, t: Option<Preset>, j: int)
    requires s.Some? ==> s.value in Catalog
    requires t.Some? ==> t.value in Catalog
    ensures Expression(s, i) == Expression(t, j) <==> s == t && (s.Some? ==> i == j)
  {
    if Expression(s, i) == Expression(t, j) {
      if s.Some? {
        DecodeExpressionOf(s.value, i);
      }
      if t.Some? {
        DecodeExpressionOf(t.value, j);
      }
      if s.None? && t.Some? {
        DecodeNone();
      } else if s.Some? && t.None? {
        DecodeNone();
      } else if s.Some? && t.Some? {
        CatalogNamesIdentify(s.value, t.value);
      }
    }
  }

  // ---------------------------------------------------------------------
  // The panel
  // ---------------------------------------------------------------------

  class EffectsPanel {
    var selected: Option<Preset>
    var intensity: int
    /** The decoded image, once its load event has fired. */
    var image: Option<Bitmap>
    /** Whether the canvas element is in the page (its reference is set). */
    var mounted: bool
    const canvas: Surface
    /** The JPEG snapshots handed to the save callback, oldest first. */
    var emitted: seq<Snapshot>

    /** The slider and the selection stay within what the controls offer. */
    ghost predicate Valid()
      reads this
    {
      && 0 <= intensity <= 100
      && (selected.Some? ==> selected.value in Catalog)
    }

    /** Whether a draw does anything: both the canvas and the image are there. */
    predicate CanDraw()
      reads this
    {
      mounted && image.Some?
    }

    /** The panel's first render: no preset, full intensity, nothing loaded or saved. */
    constructor ()
      ensures Valid()
      ensures selected == None && intensity == 100
      ensures image == None && !mounted && emitted == [] && fresh(canvas)
    {
      selected := None;
      intensity := 100;
      image := None;
      mounted := false;
      emitted := [];
      canvas := new Surface();
    }

    /**
     * `drawImage` as seen by a given render: the selection and intensity are
     * those the render captured. Without a canvas or an image this does
     * nothing; otherwise the canvas takes the image's size (which resets
     * it), is cleared in full, gets the expression as its filter, and shows
     * one draw of the image.
     */
    method DrawWith(sel: Option<Preset>, i: int)
      modifies canvas
      ensures !CanDraw() ==> unchanged(canvas)
      ensures CanDraw() ==>
        && canvas.width == image.value.width && canvas.height == image.value.height
        && canvas.state == DefaultState.(filter := Expression(sel, i)) && canvas.stack == []
        && canvas.layers == [Drawn(image.value, 0, 0, Expression(sel, i), [])]
        && canvas.calls == old(canvas.calls) + [SetWidth(image.value.width), SetHeight(image.value.height),
             ClearRect(0, 0, image.value.width, image.value.height), SetFilter(Expression(sel, i)), DrawImage(image.value, 0, 0)]
    {
      if !mounted || image.None? {
        return;
      }
      var img := image.value;
      canvas.SetWidthTo(img.width);
      canvas.SetHeightTo(img.height);
      canvas.ClearRectAt(0, 0, canvas.width, canvas.height);
      canvas.SetFilterTo(Expression(sel, i));
      canvas.DrawImageAt(img, 0, 0);
    }

    /** The canvas enters the page; the redraw effect runs once, before any image has loaded. */
    method Mount()
      requires Valid() && !mounted && image.None?
      modifies this`mounted, canvas
      ensures Valid() && mounted
      ensures unchanged(canvas)
    {
      mounted := true;
      DrawWith(selected, intensity);
    }

    /**
     * The image's load event. Its handler belongs to the first render, so
     * it draws with that render's selection and intensity (none, 100),
     * whatever has been chosen since.
     */
    method OnImageLoad(img: Bitmap)
      requires Valid() && mounted
      modifies this`image, canvas
      ensures Valid() && image == Some(img)
      ensures canvas.width == img.width && canvas.height == img.height
      ensures canvas.layers == [Drawn(img, 0, 0, "none", [])]
    {
      image := Some(img);
      DrawWith(None, 100);
    }

    /**
     * A preset button: the selection is replaced and the intensity kept.
     * Choosing the preset already selected renders nothing new.
     */
    method SelectEffect(p: Preset)
      requires Valid() && p in Catalog
      modifies this`selected, canvas
      ensures Valid()
      ensures selected == Some(p) && intensity == old(intensity)
      ensures old(selected) == Some(p) || !CanDraw() ==> unchanged(canvas)
      ensures old(selected) != Some(p) && CanDraw() ==>
        canvas.layers == [Drawn(image.value, 0, 0, Expression(Some(p), intensity), [])]
    {
      if selected != Some(p) {
        selected := Some(p);
        DrawWith(selected, intensity);
      }
    }

    /** The intensity slider, enabled only once a preset is selected. */
    method SetIntensity(v: int)
      requires Valid() && selected.Some? && 0 <= v <= 100
      modifies this`intensity, canvas
      ensures Valid()
      ensures intensity == v && selected == old(selected)
      ensures old(intensity) == v || !CanDraw() ==> unchanged(canvas)
      ensures old(intensity) != v && CanDraw() ==>
        canvas.layers == [Drawn(image.value, 0, 0, Expression(selected, v), [])]
    {
      if intensity != v {
        intensity := v;
        DrawWith(selected, intensity);
      }
    }

    /**
     * The Save button, enabled only once a preset is selected: the canvas,
     * when there is one, is encoded and handed on.
     */
    method HandleSave()
      requires Valid() && selected.Some?
      modifies this`emitted
      ensures mounted ==> emitted == old(emitted) + [canvas.ToSnapshot()]
      ensures !mounted ==> emitted == old(emitted)
    {
      if mounted {
        emitted := emitted + [canvas.ToSnapshot()];
      }
    }
  }
}
