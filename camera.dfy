/**
 * The viewport camera (src/viewport/camera.rs): a pan position, a zoom
 * factor and the viewport's aspect ratio, from which each frame's
 * view-projection matrix is built. Fields are `real` where the source has
 * f32, so rounding is not captured.
 */
module Camera {
  import opened Glam

  /**
   * The orthographic projection the camera uses: horizontal half-extent
   * `aspectRatio`, vertical half-extent 1, depth range -1..1.
   */
  function Projection(aspectRatio: real): Mat4
    requires aspectRatio != 0.0
  {
    Orthographic(-aspectRatio, aspectRatio, -1.0, 1.0, -1.0, 1.0)
  }

  /** The projection divides x by the aspect ratio, keeps y, and sends depth z to (1 - z) / 2. */
  lemma ProjectionPointMap(aspectRatio: real, x: real, y: real, z: real)
    requires aspectRatio != 0.0
    ensures Apply(Projection(aspectRatio), Point(x, y, z)) == Point(x / aspectRatio, y, (1.0 - z) / 2.0)
  {
    OrthographicPointMap(-aspectRatio, aspectRatio, -1.0, 1.0, -1.0, 1.0, x, y, z);
  }

  /** The view matrix: scale by `zoom` after moving `position` to the origin. */
  function View(position: Vec2, zoom: real): Mat4 {
    Mul(FromScale(zoom, zoom, 1.0), FromTranslation(-position.x, -position.y, 0.0))
  }

  /** The view sends world p to zoom * (p - position) and keeps depth. */
  lemma ViewPointMap(position: Vec2, zoom: real, x: real, y: real, z: real)
    ensures Apply(View(position, zoom), Point(x, y, z)) == Point(zoom * (x - position.x), zoom * (y - position.y), z)
  {
    FromTranslationPointMap(-position.x, -position.y, 0.0, x, y, z);
    FromScalePointMap(zoom, zoom, 1.0, x - position.x, y - position.y, z);
  }

  /** Projection times view for a camera at `position` with `zoom` and `aspectRatio`. */
  function ViewProjection(position: Vec2, zoom: real, aspectRatio: real): Mat4
    requires aspectRatio != 0.0
  {
    Mul(Projection(aspectRatio), View(position, zoom))
  }

  class Camera {
    var position: Vec2
    var zoom: real
    var aspectRatio: real

    /** `Camera::new`: centred, unzoomed, square viewport. */
    constructor ()
      ensures position == Vec2(0.0, 0.0) && zoom == 1.0 && aspectRatio == 1.0
    {
      position := Vec2(0.0, 0.0);
      zoom := 1.0;
      aspectRatio := 1.0;
    }

    /**
     * `set_viewport_size`: the aspect ratio becomes width/height; a zero
     * height is ignored so that no division by zero happens.
     */
    method SetViewportSize(width: nat, height: nat)
      modifies this`aspectRatio
      ensures height > 0 ==> aspectRatio == width as real / height as real
      ensures height == 0 ==> aspectRatio == old(aspectRatio)
    {
      if height > 0 {
        aspectRatio := width as real / height as real;
      }
    }

    /**
     * `build_view_projection_matrix`: projection times view for this
     * camera's state. What the matrix does to a point is stated by
     * `ViewProjectionComposes` and `ViewProjectionPointMap`.
     */
    function BuildViewProjectionMatrix(): Mat4
      reads this
      requires aspectRatio != 0.0
    {
      ViewProjection(position, zoom, aspectRatio)
    }
  }

  /** The camera's matrix acts on every point as its projection after its view. */
  lemma ViewProjectionComposes(c: Camera)
    requires c.aspectRatio != 0.0
    ensures forall x, y, z {:trigger Apply(c.BuildViewProjectionMatrix(), Point(x, y, z))} ::
              Apply(c.BuildViewProjectionMatrix(), Point(x, y, z))
              == Apply(Projection(c.aspectRatio), Apply(View(c.position, c.zoom), Point(x, y, z)))
  {
    var a, p, zoom := c.aspectRatio, c.position, c.zoom;
    var m := c.BuildViewProjectionMatrix();
    forall x, y, z
      ensures Apply(m, Point(x, y, z)) == Apply(Projection(a), Apply(View(p, zoom), Point(x, y, z)))
    {
      ProjectViewPoint(a, p, zoom, x, y, z);
    }
  }

  /**
   * What the camera's matrix does to a world point: the point is moved by
   * -position, scaled by zoom, and divided horizontally by the aspect ratio;
   * depth z lands at (1 - z) / 2.
   */
  lemma ViewProjectionPointMap(c: Camera)
    requires c.aspectRatio != 0.0
    ensures forall x, y, z {:trigger Apply(c.BuildViewProjectionMatrix(), Point(x, y, z))} ::
              Apply(c.BuildViewProjectionMatrix(), Point(x, y, z))
              == Point(c.zoom * (x - c.position.x) / c.aspectRatio, c.zoom * (y - c.position.y), (1.0 - z) / 2.0)
  {
    var a, p, zoom := c.aspectRatio, c.position, c.zoom;
    ViewProjectionComposes(c);
    forall x, y, z
      ensures Apply(Projection(a), Apply(View(p, zoom), Point(x, y, z)))
              == Point(zoom * (x - p.x) / a, zoom * (y - p.y), (1.0 - z) / 2.0)
    {
      ProjectViewPoint(a, p, zoom, x, y, z);
    }
  }

  /** Projection after view, for one point. */
  lemma ProjectViewPoint(a: real, p: Vec2, zoom: real, x: real, y: real, z: real)
    requires a != 0.0
    ensures Apply(Mul(Projection(a), View(p, zoom)), Point(x, y, z)) == Apply(Projection(a), Apply(View(p, zoom), Point(x, y, z)))
    ensures Apply(Projection(a), Apply(View(p, zoom), Point(x, y, z)))
            == Point(zoom * (x - p.x) / a, zoom * (y - p.y), (1.0 - z) / 2.0)
  {
    ViewPointMap(p, zoom, x, y, z);
    ProjectionPointMap(a, zoom * (x - p.x), zoom * (y - p.y), z);
  }

  /**
   * The camera's position is the centre of the screen: it maps to
   * x, y = (0, 0), at the middle of the depth range. For the default camera
   * this is world (0, 0).
   */
  lemma PositionIsScreenCentre(c: Camera)
    requires c.aspectRatio != 0.0
    ensures Apply(c.BuildViewProjectionMatrix(), Point(c.position.x, c.position.y, 0.0)) == Point(0.0, 0.0, 0.5)
  {
    ViewProjectionPointMap(c);
    var o := Apply(c.BuildViewProjectionMatrix(), Point(c.position.x, c.position.y, 0.0));
    assert o.x == 0.0 && o.y == 0.0 && o.z == 0.5 && o.w == 1.0;
  }

  /**
   * The visible half-width in world units is aspect / zoom and the visible
   * half-height is 1 / zoom: those offsets from the position land on the
   * screen's right and top edges. For the default camera, world (1, 0) lands
   * on the right edge.
   */
  lemma VisibleHalfExtents(c: Camera)
    requires c.aspectRatio != 0.0 && c.zoom != 0.0
    ensures Apply(c.BuildViewProjectionMatrix(), Point(c.position.x + c.aspectRatio / c.zoom, c.position.y, 0.0)).x == 1.0
    ensures Apply(c.BuildViewProjectionMatrix(), Point(c.position.x, c.position.y + 1.0 / c.zoom, 0.0)).y == 1.0
  {
    ViewProjectionPointMap(c);
    var e := Apply(c.BuildViewProjectionMatrix(), Point(c.position.x + c.aspectRatio / c.zoom, c.position.y, 0.0));
    assert e.x == c.zoom * (c.aspectRatio / c.zoom) / c.aspectRatio;
    var t := Apply(c.BuildViewProjectionMatrix(), Point(c.position.x, c.position.y + 1.0 / c.zoom, 0.0));
    assert t.y == c.zoom * (1.0 / c.zoom);
  }

  /**
   * The projection's half-extents: with the camera at the origin and zoom 1,
   * the world points (aspect, 1) and (-aspect, -1) are the top-right and
   * bottom-left corners of the screen.
   */
  lemma ProjectionHalfExtents(a: real)
    requires a > 0.0
    ensures Apply(Projection(a), Point(a, 1.0, 0.0)) == Point(1.0, 1.0, 0.5)
    ensures Apply(Projection(a), Point(-a, -1.0, 0.0)) == Point(-1.0, -1.0, 0.5)
  {
    ProjectionPointMap(a, a, 1.0, 0.0);
    ProjectionPointMap(a, -a, -1.0, 0.0);
  }
}
