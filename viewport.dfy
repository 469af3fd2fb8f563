/**
 * The viewport's controller logic (src/viewport/mod.rs): the slot that
 * holds the renderer once the GPU is ready, the per-frame tick that keeps
 * the output target and the camera in step with the widget's size, and the
 * hand-over of a decoded image to the renderer.
 *
 * The GPU acquisition, the buffer mapping and the decoding thread are not
 * modelled; their outcomes arrive as parameters: whether the readback's
 * oneshot channel delivered a value, and whether the decoding channel
 * delivered a decoded image, a decode error, or nothing.
 */
module Viewport {
  import opened Wrappers
  import opened Renderer
  import Camera

  /**
   * The `MemoryTexture` a delivered readback publishes: its extent, its row
   * stride, and the number of bytes it wraps (the whole mapped buffer). The
   * pixel format is always RGBA8.
   */
  datatype Frame = Frame(width: nat, height: nat, stride: nat, byteLength: nat)

  /** A frame whose rows hold its pixels and whose bytes hold its rows. */
  predicate FrameFits(f: Frame) {
    && f.width >= 1 && f.height >= 1
    && f.stride % CopyAlignment == 0
    && f.width * BytesPerPixel <= f.stride
    && f.byteLength == f.stride * f.height
  }

  /** What the decoding thread sends: a decoded image, or the decoder's error. */
  datatype Decoded = Decoded(image: Image) | DecodeError

  /** A widget side as the tick uses it: at least one pixel. */
  function ClampDim(side: int): (r: nat)
    ensures r >= 1 && r >= side
    ensures r == side || r == 1
  {
    if side >= 1 then side else 1
  }

  /** The copy of the whole output target into the readback buffer. */
  function RenderedCopy(r: IrisRenderer): CopyLayout
    reads r
  {
    CopyLayout(r.paddedBytesPerRow, r.height, r.width, r.height)
  }

  /** The aspect ratio of a target with positive sides is positive. */
  lemma PositiveRatio(width: nat, height: nat)
    requires width >= 1 && height >= 1
    ensures width as real / height as real > 0.0
  {
  }

  class Viewport {
    /** The camera shared by the tick and the input handlers. */
    const camera: Camera.Camera
    /** The renderer slot: `null` until the GPU is ready. */
    var renderer: IrisRenderer?
    /** What the picture widget shows. */
    var paintable: Option<Frame>

    /**
     * The camera's aspect ratio is the output target's (1 while the slot is
     * empty), the renderer's bookkeeping is consistent, and a published frame
     * always fits its bytes.
     */
    ghost predicate Valid()
      reads this, camera, renderer
    {
      && (renderer == null ==> camera.aspectRatio == 1.0)
      && (renderer != null ==>
            && renderer.Valid()
            && renderer.width >= 1 && renderer.height >= 1
            && camera.aspectRatio == renderer.width as real / renderer.height as real)
      && (paintable.Some? ==> FrameFits(paintable.value))
    }

    /** `Viewport::new`: a default camera, an empty slot, nothing shown. */
    constructor ()
      ensures Valid()
      ensures fresh(camera)
      ensures renderer == null && paintable == None
      ensures camera.position == Glam.Vec2(0.0, 0.0) && camera.zoom == 1.0
    {
      camera := new Camera.Camera();
      renderer := null;
      paintable := None;
    }

    /** The GPU-ready continuation: a 1x1 renderer fills the empty slot. */
    method Initialize()
      requires Valid() && renderer == null
      modifies this`renderer
      ensures Valid()
      ensures renderer != null && fresh(renderer)
      ensures renderer.width == 1 && renderer.height == 1
      ensures renderer.imageDims == Glam.Vec2(1.0, 1.0)
      ensures renderer.reallocations == 0 && renderer.frames == []
      ensures paintable == old(paintable)
    {
      renderer := new IrisRenderer(1, 1);
    }

    /**
     * The tick's resize step: when the clamped widget size differs from the
     * renderer's extent, the renderer is resized and the camera takes the
     * new aspect ratio, both before anything is drawn.
     */
    method SyncSize(w: nat, h: nat)
      requires Valid() && renderer != null && w >= 1 && h >= 1
      modifies renderer, camera`aspectRatio
      ensures Valid()
      ensures
        var changed := Dims(w, h) != old(Dims(renderer.width, renderer.height));
        && renderer.width == w && renderer.height == h
        && renderer.reallocations == old(renderer.reallocations) + (if changed then 1 else 0)
        && camera.aspectRatio == (if changed then w as real / h as real else old(camera.aspectRatio))
      ensures renderer.frames == old(renderer.frames)
      ensures renderer.imageDims == old(renderer.imageDims) && renderer.bindGroup == old(renderer.bindGroup)
    {
      if renderer.width != w || renderer.height != h {
        renderer.Resize(w, h);
        camera.SetViewportSize(w, h);
      }
    }

    /**
     * The tick callback. With an empty slot it does nothing. Otherwise it
     * clamps the widget's sides to at least 1; when they differ from the
     * renderer's extent it resizes the renderer and the camera's aspect
     * ratio together; it then renders exactly one frame into the (new)
     * extent, and publishes that frame when the readback's oneshot channel
     * delivered the mapping callback's value (its sender was not dropped).
     */
    method Tick(widgetWidth: int, widgetHeight: int, delivered: bool)
      requires Valid()
      modifies this`paintable, renderer, camera`aspectRatio
      ensures Valid()
      ensures renderer == old(renderer)
      ensures old(renderer) == null ==> paintable == old(paintable) && camera.aspectRatio == old(camera.aspectRatio)
      ensures renderer != null ==>
                var w, h := ClampDim(widgetWidth), ClampDim(widgetHeight);
                var changed := Dims(w, h) != old(Dims(renderer.width, renderer.height));
                && renderer.width == w && renderer.height == h
                && renderer.reallocations == old(renderer.reallocations) + (if changed then 1 else 0)
                && camera.aspectRatio == (if changed then w as real / h as real else old(camera.aspectRatio))
                && |renderer.frames| == |old(renderer.frames)| + 1
                && renderer.imageDims == old(renderer.imageDims) && renderer.bindGroup == old(renderer.bindGroup)
                && paintable
                   == if delivered then Some(Frame(w, h, renderer.paddedBytesPerRow, renderer.outputBuffer.size))
                      else old(paintable)
      // The frame just logged was drawn with the resized camera's matrix, the
      // image's scale and the current bind group, into the new extent.
      ensures renderer != null ==> renderer.frames[..|old(renderer.frames)|] == old(renderer.frames)
      ensures renderer != null ==>
                forall i | |old(renderer.frames)| <= i < |renderer.frames| ::
                  renderer.frames[i]
                  == Submission(Uniforms(camera.BuildViewProjectionMatrix(), ImageScale(renderer.imageDims)),
                                renderer.bindGroup, RenderedCopy(renderer))
    {
      if renderer != null {
        var w := ClampDim(widgetWidth);
        var h := ClampDim(widgetHeight);
        SyncSize(w, h);
        PositiveRatio(renderer.width, renderer.height);
        var _ := renderer.Render(camera);
        if delivered {
          paintable := Some(Frame(renderer.width, renderer.height, renderer.paddedBytesPerRow, renderer.outputBuffer.size));
        }
      }
    }

    /**
     * The main-thread half of `load_image`: a closed channel does nothing, a
     * decode error leaves the renderer untouched, and a decoded image is
     * handed to the renderer if the slot is filled.
     */
    method LoadImage(received: Option<Decoded>)
      requires Valid()
      requires received.Some? && received.value.Decoded? ==>
                 received.value.image.width > 0 && received.value.image.height > 0
      modifies renderer
      ensures Valid()
      ensures renderer == old(renderer)
      ensures renderer != null ==>
                && renderer.width == old(renderer.width) && renderer.height == old(renderer.height)
                && renderer.paddedBytesPerRow == old(renderer.paddedBytesPerRow)
                && renderer.outputTexture == old(renderer.outputTexture)
                && renderer.outputBuffer == old(renderer.outputBuffer)
                && renderer.reallocations == old(renderer.reallocations)
                && renderer.frames == old(renderer.frames)
      ensures renderer != null && received.Some? && received.value.Decoded? ==>
                renderer.imageDims
                == Glam.Vec2(received.value.image.width as real, received.value.image.height as real)
      ensures renderer != null && !(received.Some? && received.value.Decoded?) ==>
                renderer.imageDims == old(renderer.imageDims) && renderer.bindGroup == old(renderer.bindGroup)
    {
      if received.Some? {
        match received.value
        case Decoded(image) =>
          if renderer != null {
            renderer.LoadImage(image);
          }
        case DecodeError =>
      }
    }
  }

  /** A viewport after initialization and its first tick at `width` x `height`. */
  method FirstTick(width: nat, height: nat) returns (v: Viewport)
    requires width >= 1 && height >= 1 && (width, height) != (1, 1)
    ensures fresh(v) && fresh(v.camera) && fresh(v.renderer)
    ensures v.Valid() && v.renderer != null
    ensures v.renderer.width == width && v.renderer.height == height
    ensures v.renderer.reallocations == 1 && |v.renderer.frames| == 1
    ensures v.camera.aspectRatio == width as real / height as real
  {
    v := new Viewport();
    v.Initialize();
    v.Tick(width, height, true);
  }

  /**
   * The first two ticks after initialization at a widget of any size other
   * than 1x1 (640x480, say): the first resizes the 1x1 target and the
   * camera, the second only renders.
   */
  method SteadyTicks(width: nat, height: nat) returns (reallocations: nat, frames: nat, aspect: real)
    requires width >= 1 && height >= 1 && (width, height) != (1, 1)
    ensures reallocations == 1
    ensures frames == 2
    ensures aspect == width as real / height as real
  {
    var v := FirstTick(width, height);
    v.Tick(width, height, false);
    reallocations := v.renderer.reallocations;
    frames := |v.renderer.frames|;
    aspect := v.camera.aspectRatio;
  }
}
