/**
 * The off-screen renderer's bookkeeping (src/viewport/renderer.rs): the
 * size of the output target, the row stride of the readback buffer, the
 * dimensions of the loaded image, and the per-frame image scale.
 *
 * GPU objects are opaque tokens that record only what the bookkeeping
 * depends on: the output texture its extent, the readback buffer its byte
 * size, the bind group the extent of the image texture it samples. Shader,
 * pipeline, sampler and uniform buffer never change after construction and
 * are not modelled. Widths and heights are unbounded naturals: the device
 * is opened with wgpu's default limits, which cap a texture side at 8192,
 * so `width * 4` and `padded * height` cannot overflow a u32.
 */
module Renderer {
  import opened Glam
  import Camera

  /** wgpu's `COPY_BYTES_PER_ROW_ALIGNMENT`: a buffer copy's row stride must be a multiple of it. */
  const CopyAlignment: nat := 256

  /** The output texture holds 4 bytes (RGBA8) per pixel. */
  const BytesPerPixel: nat := 4

  /** The output texture, known by its extent. */
  datatype Texture = Texture(width: nat, height: nat)

  /** The readback buffer, known by its size in bytes. */
  datatype Buffer = Buffer(size: nat)

  /** The bind group; it differs from one image to the next only in the extent of the texture it samples. */
  datatype BindGroup = BindGroup(image: Texture)

  /** A decoded image, known by its pixel dimensions. */
  datatype Image = Image(width: nat, height: nat)

  /** The layout of the texture-to-buffer copy that ends each frame. */
  datatype CopyLayout = CopyLayout(bytesPerRow: nat, rowsPerImage: nat, width: nat, height: nat)

  /** The uniforms written before each frame. */
  datatype Uniforms = Uniforms(viewProj: Mat4, imageScale: Vec2)

  /** What `render` hands to the GPU queue: the uniforms, the bind group it draws with, and the readback copy. */
  datatype Submission = Submission(uniforms: Uniforms, bindGroup: BindGroup, copy: CopyLayout)

  /**
   * The row stride of the readback buffer: `width * 4` rounded up to the
   * copy alignment.
   */
  function PaddedBytesPerRow(width: nat): (padded: nat)
    ensures padded % CopyAlignment == 0
    ensures width * BytesPerPixel <= padded < width * BytesPerPixel + CopyAlignment
  {
    var unpadded := width * BytesPerPixel;
    var padding := (CopyAlignment - unpadded % CopyAlignment) % CopyAlignment;
    unpadded + padding
  }

  /** The stride is the least multiple of the alignment that holds a row. */
  lemma PaddedBytesPerRowIsLeast(width: nat, stride: nat)
    requires stride % CopyAlignment == 0 && width * BytesPerPixel <= stride
    ensures PaddedBytesPerRow(width) <= stride
  {
    var p := PaddedBytesPerRow(width);
    var k, j := p / CopyAlignment, stride / CopyAlignment;
    assert p == k * CopyAlignment;
    assert stride == j * CopyAlignment;
  }

  /** A row that already fills whole alignment units is not padded. */
  lemma AlignedRowIsNotPadded(width: nat)
    requires width % 64 == 0
    ensures PaddedBytesPerRow(width) == width * BytesPerPixel
  {
    var k := width / 64;
    assert width == 64 * k;
    assert width * BytesPerPixel == CopyAlignment * k;
    assert (CopyAlignment * k) % CopyAlignment == 0;
  }

  /** The output texture and readback buffer `create_targets` allocates, and the stride it returns. */
  datatype Targets = Targets(texture: Texture, buffer: Buffer, paddedBytesPerRow: nat)

  /**
   * `create_targets`: a texture of the requested extent, and a buffer that
   * holds exactly `height` padded rows.
   */
  function CreateTargets(width: nat, height: nat): (t: Targets)
    ensures t.texture == Texture(width, height)
    ensures t.paddedBytesPerRow == PaddedBytesPerRow(width)
    ensures t.paddedBytesPerRow % CopyAlignment == 0 && width * BytesPerPixel <= t.paddedBytesPerRow
    ensures t.buffer.size == t.paddedBytesPerRow * height
  {
    var padded := PaddedBytesPerRow(width);
    Targets(Texture(width, height), Buffer(padded * height), padded)
  }

  /** The target extent as a pair. */
  datatype Dims = Dims(width: nat, height: nat)

  /** Whether `resize(width, height)` reallocates the targets of a renderer whose extent is `current`. */
  predicate Reallocates(current: Dims, width: nat, height: nat): (b: bool)
    ensures b ==> width * height > 0 && Dims(width, height) != current
    ensures !b && width * height > 0 ==> Dims(width, height) == current
  {
    width > 0 && height > 0 && (width != current.width || height != current.height)
  }

  /**
   * The extent after `resize(width, height)`: the requested one when both
   * sides are positive, otherwise the current one.
   */
  function Resized(current: Dims, width: nat, height: nat): (r: Dims)
    ensures width > 0 && height > 0 ==> r == Dims(width, height)
    ensures width == 0 || height == 0 ==> r == current
  {
    if Reallocates(current, width, height) then Dims(width, height) else current
  }

  /** Resizing twice to the same extent is resizing once, and the second call does not reallocate. */
  lemma ResizeIdempotent(current: Dims, width: nat, height: nat)
    ensures Resized(Resized(current, width, height), width, height) == Resized(current, width, height)
    ensures !Reallocates(Resized(current, width, height), width, height)
  {
  }

  /** The number of reallocations a sequence of `resize` calls performs, starting from `current`. */
  function ReallocationCount(current: Dims, requests: seq<Dims>): (n: nat)
    ensures n <= |requests|
    decreases |requests|
  {
    if requests == [] then 0
    else
      var next := Resized(current, requests[0].width, requests[0].height);
      (if Reallocates(current, requests[0].width, requests[0].height) then 1 else 0)
      + ReallocationCount(next, requests[1..])
  }

  /** A sequence of requests that all name the current extent (or a zero side) reallocates nothing. */
  lemma {:induction false} UnchangedRequestsDoNotReallocate(current: Dims, requests: seq<Dims>)
    requires forall i :: 0 <= i < |requests| ==> requests[i] == current || requests[i].width == 0 || requests[i].height == 0
    ensures ReallocationCount(current, requests) == 0
  {
    if requests != [] {
      UnchangedRequestsDoNotReallocate(current, requests[1..]);
    }
  }

  /**
   * The aspect-preserving scale of the image quad: the longer side spans the
   * full unit, the shorter one its share of it.
   */
  function ImageScale(imageDims: Vec2): (s: Vec2)
    requires imageDims.x > 0.0 && imageDims.y > 0.0
    ensures 0.0 < s.x <= 1.0 && 0.0 < s.y <= 1.0
    ensures s.x == 1.0 || s.y == 1.0
    ensures s.x * imageDims.y == s.y * imageDims.x
  {
    var aspect := imageDims.x / imageDims.y;
    if aspect > 1.0 then Vec2(1.0, 1.0 / aspect) else Vec2(aspect, 1.0)
  }

  /**
   * The scale is the only pair in (0, 1] x (0, 1] with a full side and the
   * image's proportions.
   */
  lemma ImageScaleUnique(imageDims: Vec2, t: Vec2)
    requires imageDims.x > 0.0 && imageDims.y > 0.0
    requires 0.0 < t.x <= 1.0 && 0.0 < t.y <= 1.0
    requires t.x == 1.0 || t.y == 1.0
    requires t.x * imageDims.y == t.y * imageDims.x
    ensures t == ImageScale(imageDims)
  {
    var s := ImageScale(imageDims);
    var w, h := imageDims.x, imageDims.y;
    if w > h {
      assert t.x == 1.0 && s.x == 1.0;
      assert t.y * w == s.y * w;
    } else {
      assert t.y == 1.0 && s.y == 1.0;
      assert t.x * h == s.x * h;
    }
  }

  /** A wide image fills the width: the scale is (1, 1/a) for aspect a > 1. */
  lemma WideImageScale(imageDims: Vec2)
    requires imageDims.x > imageDims.y > 0.0
    ensures ImageScale(imageDims) == Vec2(1.0, imageDims.y / imageDims.x)
  {
    var a := imageDims.x / imageDims.y;
    assert a * imageDims.y == imageDims.x;
    assert 1.0 / a == imageDims.y / imageDims.x;
  }

  /** A tall or square image fills the height: the scale is (a, 1). */
  lemma TallImageScale(imageDims: Vec2)
    requires 0.0 < imageDims.x <= imageDims.y
    ensures ImageScale(imageDims) == Vec2(imageDims.x / imageDims.y, 1.0)
  {
    assert imageDims.x / imageDims.y <= 1.0;
  }

  /** `IrisRenderer`: the fields the bookkeeping updates in place. */
  class IrisRenderer {
    var width: nat
    var height: nat
    var paddedBytesPerRow: nat
    var outputTexture: Texture
    var outputBuffer: Buffer
    var bindGroup: BindGroup
    /** `image_dims`, as the reals the source converts the image's u32 sides to. */
    var imageDims: Vec2
    /**
     * How many times `resize` has recreated the output targets; a counter of
     * the model's, standing for the texture and buffer allocations.
     */
    var reallocations: nat
    /**
     * The submissions of the frames rendered so far, oldest first; a log of
     * the model's, standing for the submitted command buffers.
     */
    var frames: seq<Submission>

    /**
     * The stride, texture and buffer always describe the current extent, and
     * `image_dims` always matches the texture the bind group samples.
     */
    ghost predicate Valid()
      reads this
    {
      && Targets(outputTexture, outputBuffer, paddedBytesPerRow) == CreateTargets(width, height)
      && bindGroup.image.width > 0 && bindGroup.image.height > 0
      && imageDims == Vec2(bindGroup.image.width as real, bindGroup.image.height as real)
    }

    /**
     * `IrisRenderer::new`: targets for the requested extent, and a 1x1
     * placeholder texture bound with `image_dims` (1, 1).
     */
    constructor (width: nat, height: nat)
      ensures Valid()
      ensures this.width == width && this.height == height
      ensures paddedBytesPerRow == PaddedBytesPerRow(width)
      ensures imageDims == Vec2(1.0, 1.0)
      ensures reallocations == 0 && frames == []
    {
      var targets := CreateTargets(width, height);
      this.width := width;
      this.height := height;
      outputTexture := targets.texture;
      outputBuffer := targets.buffer;
      paddedBytesPerRow := targets.paddedBytesPerRow;
      bindGroup := BindGroup(Texture(1, 1));
      imageDims := Vec2(1.0, 1.0);
      reallocations := 0;
      frames := [];
    }

    /**
     * `load_image`: a texture of the image's extent is bound in place of the
     * previous one and `image_dims` becomes the image's sides. The output
     * targets are not touched.
     */
    method LoadImage(img: Image)
      requires Valid()
      requires img.width > 0 && img.height > 0
      modifies this`bindGroup, this`imageDims
      ensures Valid()
      ensures imageDims == Vec2(img.width as real, img.height as real)
      ensures bindGroup == BindGroup(Texture(img.width, img.height))
    {
      imageDims := Vec2(img.width as real, img.height as real);
      bindGroup := BindGroup(Texture(img.width, img.height));
    }

    /**
     * `resize`: with both sides positive and an extent different from the
     * current one, recreate the targets for it; otherwise do nothing.
     */
    method Resize(width: nat, height: nat)
      requires Valid()
      modifies this`width, this`height, this`outputTexture, this`outputBuffer,
               this`paddedBytesPerRow, this`reallocations
      ensures Valid()
      ensures Dims(this.width, this.height) == Resized(old(Dims(this.width, this.height)), width, height)
      ensures reallocations
              == old(reallocations) + if Reallocates(old(Dims(this.width, this.height)), width, height) then 1 else 0
      ensures !Reallocates(old(Dims(this.width, this.height)), width, height)
              ==> outputTexture == old(outputTexture) && outputBuffer == old(outputBuffer)
    {
      if width > 0 && height > 0 && (width != this.width || height != this.height) {
        this.width := width;
        this.height := height;
        var targets := CreateTargets(width, height);
        outputTexture := targets.texture;
        outputBuffer := targets.buffer;
        paddedBytesPerRow := targets.paddedBytesPerRow;
        reallocations := reallocations + 1;
      }
    }

    /**
     * `render`: the uniforms carry the camera's view-projection and the image
     * scale; the pass draws with the current bind group and the frame is
     * copied into the readback buffer row by padded row. Only the model-only
     * log of frames changes.
     */
    method Render(camera: Camera.Camera) returns (sub: Submission)
      requires Valid()
      requires camera.aspectRatio != 0.0
      modifies this`frames
      ensures Valid()
      ensures sub.uniforms.viewProj == camera.BuildViewProjectionMatrix()
      ensures sub.uniforms.imageScale == ImageScale(imageDims)
      ensures sub.bindGroup == bindGroup
      ensures sub.copy == CopyLayout(paddedBytesPerRow, height, width, height)
      ensures frames == old(frames) + [sub]
    {
      var scale := ImageScale(imageDims);
      var uniforms := Uniforms(camera.BuildViewProjectionMatrix(), scale);
      sub := Submission(uniforms, bindGroup, CopyLayout(paddedBytesPerRow, height, width, height));
      frames := frames + [sub];
    }
  }

  /**
   * Every copy `render` records is one the buffer can take: the stride is
   * aligned, a row of pixels fits in it, and the rows fill the buffer
   * exactly.
   */
  lemma CopyFitsBuffer(r: IrisRenderer)
    requires r.Valid()
    ensures r.paddedBytesPerRow % CopyAlignment == 0
    ensures r.width * BytesPerPixel <= r.paddedBytesPerRow
    ensures r.paddedBytesPerRow * r.height == r.outputBuffer.size
    ensures r.outputTexture == Texture(r.width, r.height)
  {
  }

  /**
   * Creating a renderer at 100x100 and resizing it to 100x100 and then to
   * 200x150 reallocates the targets once.
   */
  method ResizeSequence() returns (reallocations: nat)
    ensures reallocations == 1
  {
    var r := new IrisRenderer(100, 100);
    r.Resize(100, 100);
    r.Resize(200, 150);
    reallocations := r.reallocations;
  }

  /** Loading one image and then another leaves the second image's dimensions. */
  method LoadTwice(a: Image, b: Image) returns (dims: Vec2)
    requires a.width > 0 && a.height > 0 && b.width > 0 && b.height > 0
    ensures dims == Vec2(b.width as real, b.height as real)
  {
    var r := new IrisRenderer(1, 1);
    r.LoadImage(a);
    r.LoadImage(b);
    dims := r.imageDims;
  }
}
