/**
 * An abstract HTML canvas with its 2D context, as far as the editors use
 * it: the bitmap size, the drawing state that `save()`/`restore()` keep
 * (the current transformation and the filter), the stack of saved states,
 * what is visible on the surface, and a trace of every call made on it.
 * Pixels are not modelled: a draw is recorded as the image drawn together
 * with the filter and transformation in force at that moment.
 */
module Canvas {

  /** A decoded image; only its natural size matters to the editors. */
  datatype Bitmap = Bitmap(source: string, width: nat, height: nat)

  /** One step of the current transformation (rotation angles in degrees). */
  datatype TransformOp = Translate(dx: real, dy: real) | Rotate(degrees: int)

  /** The context state that `save()` pushes and `restore()` pops. */
  datatype DrawState = DrawState(transform: seq<TransformOp>, filter: string)

  /** A fresh context: identity transformation and filter `none`. */
  const DefaultState := DrawState([], "none")

  /** One mark left on the surface since it was last cleared completely. */
  datatype Layer =
    | Drawn(image: Bitmap, x: int, y: int, filter: string, transform: seq<TransformOp>)
    | Erased(x: int, y: int, w: int, h: int, transform: seq<TransformOp>)

  /** The calls the editors make on a canvas, in the order made. */
  datatype Call =
    | SetWidth(width: nat)
    | SetHeight(height: nat)
    | ClearRect(x: int, y: int, w: int, h: int)
    | Save
    | Restore
    | TranslateBy(dx: real, dy: real)
    | RotateBy(degrees: int)
    | SetFilter(filter: string)
    | DrawImage(image: Bitmap, x: int, y: int)

  /** What `toDataURL('image/jpeg')` encodes: the surface as it stands. */
  datatype Snapshot = Jpeg(width: nat, height: nat, layers: seq<Layer>)

  class Surface {
    var width: nat
    var height: nat
    var state: DrawState
    var stack: seq<DrawState>
    var layers: seq<Layer>
    var calls: seq<Call>

    /** A new canvas element is 300 by 150 pixels and blank. */
    constructor ()
      ensures width == 300 && height == 150
      ensures state == DefaultState && stack == [] && layers == [] && calls == []
    {
      width, height := 300, 150;
      state, stack, layers, calls := DefaultState, [], [], [];
    }

    /** Assigning the width resets the bitmap and the whole context. */
    method SetWidthTo(w: nat)
      modifies this
      ensures width == w && height == old(height)
      ensures state == DefaultState && stack == [] && layers == []
      ensures calls == old(calls) + [SetWidth(w)]
    {
      width := w;
      state, stack, layers := DefaultState, [], [];
      calls := calls + [SetWidth(w)];
    }

    /** Assigning the height resets the bitmap and the whole context. */
    method SetHeightTo(h: nat)
      modifies this
      ensures height == h && width == old(width)
      ensures state == DefaultState && stack == [] && layers == []
      ensures calls == old(calls) + [SetHeight(h)]
    {
      height := h;
      state, stack, layers := DefaultState, [], [];
      calls := calls + [SetHeight(h)];
    }

    /** Whether a rectangle at the identity transformation covers the whole bitmap. */
    predicate Covers(x: int, y: int, w: int, h: int)
      reads this
    {
      state.transform == [] && x <= 0 && y <= 0 && x + w >= width && y + h >= height
    }

    /**
     * Erases a rectangle. Erasing the whole bitmap leaves nothing visible;
     * a partial erasure is recorded as a layer of its own.
     */
    method ClearRectAt(x: int, y: int, w: int, h: int)
      modifies this
      ensures width == old(width) && height == old(height)
      ensures state == old(state) && stack == old(stack)
      ensures layers == if old(Covers(x, y, w, h)) then [] else old(layers) + [Erased(x, y, w, h, old(state).transform)]
      ensures calls == old(calls) + [ClearRect(x, y, w, h)]
    {
      if Covers(x, y, w, h) {
        layers := [];
      } else {
        layers := layers + [Erased(x, y, w, h, state.transform)];
      }
      calls := calls + [ClearRect(x, y, w, h)];
    }

    method SaveState()
      modifies this
      ensures width == old(width) && height == old(height) && layers == old(layers)
      ensures state == old(state) && stack == old(stack) + [old(state)]
      ensures calls == old(calls) + [Save]
    {
      stack := stack + [state];
      calls := calls + [Save];
    }

    /** Pops the most recently saved state; with nothing saved, only the call is recorded. */
    method RestoreState()
      modifies this
      ensures width == old(width) && height == old(height) && layers == old(layers)
      ensures old(stack) == [] ==> state == old(state) && stack == []
      ensures old(stack) != [] ==> state == old(stack)[|old(stack)| - 1] && stack == old(stack)[..|old(stack)| - 1]
      ensures calls == old(calls) + [Restore]
    {
      if stack != [] {
        state := stack[|stack| - 1];
        stack := stack[..|stack| - 1];
      }
      calls := calls + [Restore];
    }

    method TranslateTo(dx: real, dy: real)
      modifies this
      ensures width == old(width) && height == old(height) && layers == old(layers) && stack == old(stack)
      ensures state == old(state).(transform := old(state).transform + [Translate(dx, dy)])
      ensures calls == old(calls) + [TranslateBy(dx, dy)]
    {
      state := state.(transform := state.transform + [Translate(dx, dy)]);
      calls := calls + [TranslateBy(dx, dy)];
    }

    method RotateTo(degrees: int)
      modifies this
      ensures width == old(width) && height == old(height) && layers == old(layers) && stack == old(stack)
      ensures state == old(state).(transform := old(state).transform + [Rotate(degrees)])
      ensures calls == old(calls) + [RotateBy(degrees)]
    {
      state := state.(transform := state.transform + [Rotate(degrees)]);
      calls := calls + [RotateBy(degrees)];
    }

    method SetFilterTo(filter: string)
      modifies this
      ensures width == old(width) && height == old(height) && layers == old(layers) && stack == old(stack)
      ensures state == old(state).(filter := filter)
      ensures calls == old(calls) + [SetFilter(filter)]
    {
      state := state.(filter := filter);
      calls := calls + [SetFilter(filter)];
    }

    /** Draws an image at (x, y) under the current filter and transformation. */
    method DrawImageAt(image: Bitmap, x: int, y: int)
      modifies this
      ensures width == old(width) && height == old(height) && state == old(state) && stack == old(stack)
      ensures layers == old(layers) + [Drawn(image, x, y, old(state).filter, old(state).transform)]
      ensures calls == old(calls) + [DrawImage(image, x, y)]
    {
      layers := layers + [Drawn(image, x, y, state.filter, state.transform)];
      calls := calls + [DrawImage(image, x, y)];
    }

    /** The JPEG encoding of the surface (the encoder itself is not modelled). */
    function ToSnapshot(): Snapshot
      reads this
    {
      Jpeg(width, height, layers)
    }
  }
}
