// A surface in the scene: where it stands, what it shows, and its renderer,
// which exists only while there is a session.
module Surfaces {
  import opened Common
  import opened Intersections
  import opened Rotations

  datatype Role = Default | Cursor | XdgToplevel | XdgPopup

  // Trigonometry is left uninterpreted: positions and rotations that come
  // from angles are kept as the angles they come from.
  datatype Position = OnSphere(distance: real, polar: real, azimuthal: real) | Placed(p: Vec3)
  datatype Rotation = Facing(polar: real, azimuthal: real) | AlongRay(polar: real, azimuthal: real) | Upright

  // The matrix `local_model`: a translation, a rotation, and a scale that is
  // zero for an inactive surface.
  datatype Model = Model(position: Position, shift: Vec3, rotation: Rotation, scale: Option<Vec3>) {
    // The matrices, applied one after the other.
    function Apply(trig: Trig, p: Vec3): Vec4 {
      Translated(trig.point(position).Plus(shift), Rotated(trig.turn(rotation), Scaled(scale, p)))
    }
  }

  // What trigonometry makes of angles.
  datatype Trig = Trig(point: Position -> Vec3, turn: Rotation -> Turn)

  // A point in homogeneous coordinates.
  datatype Vec4 = Vec4(v: Vec3, w: real)

  const NOWHERE := Vec4(ORIGIN, 0.0)

  function Scaled(scale: Option<Vec3>, p: Vec3): Vec4 {
    match scale
    case Some(k) => Vec4(Stretched(k, p), 1.0)
    case None => NOWHERE
  }

  function Rotated(turn: Turn, p: Vec4): Vec4 {
    Vec4(turn.Apply(p.v), p.w)
  }

  function Translated(shift: Vec3, p: Vec4): Vec4 {
    Vec4(p.v.Plus(shift.Times(p.w)), p.w)
  }

  function Stretched(k: Vec3, p: Vec3): Vec3 {
    Vec3(k.x * p.x, k.y * p.y, k.z * p.z)
  }

  // The pixels, by the id of the snapshot, and their size.
  datatype Texture = Texture(pixels: Id, width: nat, height: nat)

  // What the renderer has been told, and what it showed at its last commit.
  datatype Frame = Frame(model: Option<Model>, texture: Option<Texture>)
  datatype Renderer = Renderer(next: Frame, shown: Option<Frame>) {
    function Commit(): Renderer {
      Renderer(next, Some(next))
    }
  }

  datatype Buffer = Buffer(pixels: Id, width: nat, height: nat, supported: bool)

  const PIXEL_PER_METER := 9000.0
  const MIN_DISTANCE := 0.4
  const LAYER_Z_OFFSET := 0.0001

  // The size of a surface is that of its texture.
  function ScaleOf(width: nat, height: nat, depth: real): Vec3 {
    Vec3(width as real / PIXEL_PER_METER, height as real / PIXEL_PER_METER, depth)
  }

  function DistanceOf(index: nat): real {
    MIN_DISTANCE + LAYER_Z_OFFSET * index as real
  }

  // The left bottom, right bottom and left top corner of a surface.
  datatype Corners = Corners(leftBottom: Vec3, rightBottom: Vec3, leftTop: Vec3) {
    // A ray along the plane of the surface would divide by zero.
    predicate Aslant(d: Vec3) {
      Det(d, leftBottom, rightBottom, leftTop) != 0.0
    }
  }

  // How far away a surface is hit, and at which pixel of its texture.
  datatype PixelHit = PixelHit(distance: real, x: real, y: real)

  // Pixels are counted from the top.
  function PixelAt(i: SurfaceInfo, width: nat, height: nat): PixelHit {
    PixelHit(i.distance, width as real * i.u, height as real * (1.0 - i.v))
  }

  // Pixels to the right and downwards, in metres.
  function Downwards(offset: Vec3): Vec3 {
    Vec3(offset.x / 9000.0, -offset.y / 9000.0, 0.0)
  }

  lemma SeenAt(turn: Turn, scale: Vec3, at: Vec3, shift: Vec3, p: Vec3)
    ensures Translated(at.Plus(shift), Rotated(turn, Scaled(Some(scale), p))) ==
            Vec4(at.Plus(shift)
                 .Plus(turn.x.Times(scale.x * p.x)).Plus(turn.y.Times(scale.y * p.y)).Plus(turn.z.Times(scale.z * p.z)),
                 1.0)
  {
  }

  lemma NothingSeen(turn: Turn, at: Vec3)
    ensures Translated(at, Rotated(turn, NOWHERE)) == NOWHERE
  {
  }

  // The point x times along one vector, and y times along another.
  function Spanned(p: Vec3, a: Vec3, b: Vec3, x: real, y: real): Vec3 {
    p.Plus(a.Times(x)).Plus(b.Times(y))
  }

  lemma Solved(o: real, d: real, p: real, a: real, b: real, i: SurfaceInfo)
    ensures (o - (p + a * -1.0 + b * -1.0)) + d * i.distance ==
              (p + a * 1.0 + b * -1.0 - (p + a * -1.0 + b * -1.0)) * i.u +
              (p + a * -1.0 + b * 1.0 - (p + a * -1.0 + b * -1.0)) * i.v <==>
            o + d * i.distance == p + a * (2.0 * i.u - 1.0) + b * (2.0 * i.v - 1.0)
  {
  }

  // Coordinates from a corner, and from the centre.
  lemma OnPlaneIff(o: Vec3, d: Vec3, p: Vec3, a: Vec3, b: Vec3, i: SurfaceInfo)
    ensures var v0 := Spanned(p, a, b, -1.0, -1.0);
            OnPlane(o.Minus(v0), d, Spanned(p, a, b, 1.0, -1.0).Minus(v0),
                    Spanned(p, a, b, -1.0, 1.0).Minus(v0), i) <==>
            At(o, d, i.distance) == Spanned(p, a, b, 2.0 * i.u - 1.0, 2.0 * i.v - 1.0)
  {
    Solved(o.x, d.x, p.x, a.x, b.x, i);
    Solved(o.y, d.y, p.y, a.y, b.y, i);
    Solved(o.z, d.z, p.z, a.z, b.z, i);
  }

  class Surface {
    const id: Id
    const client: Id
    var role: Role
    var toplevel: bool
    var activated: bool
    var distance: real
    var polar: real
    var azimuthal: real
    var position: Position
    var rotation: Rotation
    var scale: Vec3
    var offset: Vec3
    var isActive: bool
    var pendingOffset: Option<Vec3>
    var pendingBuffer: Option<Buffer>
    var texture: Option<Id>
    var texWidth: nat
    var texHeight: nat
    var renderer: Option<Renderer>

    constructor (id: Id, client: Id, session: bool, halfPi: real)
      ensures Valid() && this.id == id && this.client == client
      ensures role == Default && !toplevel && !activated && isActive && distance == MIN_DISTANCE
      ensures renderer.Some? == session && texture.None? && scale == Vec3(1.0, 1.0, 0.0)
    {
      this.id, this.client := id, client;
      role, toplevel, activated, isActive := Default, false, false, true;
      distance, polar, azimuthal := MIN_DISTANCE, halfPi, 2.0 * halfPi;
      position, rotation := Placed(Vec3(0.0, 0.85, 0.0)), Upright;
      scale, offset := Vec3(1.0, 1.0, 0.0), Vec3(0.0, 0.0, 0.0);
      pendingOffset, pendingBuffer, texture := None, None, None;
      texWidth, texHeight := 0, 0;
      renderer := None;
      new;
      if session {
        InitRenderer();
      }
    }

    // The one function of the surface that its renderer is to follow.
    function LocalModel(): Model
      reads this
    {
      Model(position, Vec3(offset.x / PIXEL_PER_METER, -offset.y / PIXEL_PER_METER, 0.0), rotation,
            if isActive then Some(scale) else None)
    }

    function CurrentTexture(): Option<Texture>
      reads this
    {
      if texture.Some? then Some(Texture(texture.value, texWidth, texHeight)) else None
    }

    // The corners by the matrix `geom_`, which knows neither of the offset nor
    // of activity.
    function CornersIn(trig: Trig): Corners
      reads this`position, this`rotation, this`scale
    {
      Corners(InGeom(trig, Vec3(-1.0, -1.0, 0.0)), InGeom(trig, Vec3(1.0, -1.0, 0.0)),
              InGeom(trig, Vec3(-1.0, 1.0, 0.0)))
    }

    function InGeom(trig: Trig, p: Vec3): Vec3
      reads this`position, this`rotation, this`scale
    {
      Translated(trig.point(position), Rotated(trig.turn(rotation), Scaled(Some(scale), p))).v
    }

    predicate Pointable()
      reads this`texture, this`role
    {
      texture.Some? && role != Cursor
    }

    // Neither a surface without a texture nor a cursor is ever hit.
    function CheckIntersection(o: Vec3, d: Vec3, trig: Trig): Option<PixelHit>
      requires Pointable() ==> CornersIn(trig).Aslant(d)
      reads this`texture, this`role, this`texWidth, this`texHeight, this`position, this`rotation, this`scale
    {
      if !Pointable() then None
      else
        var c := CornersIn(trig);
        var result := WithSurface(o, d, c.leftBottom, c.rightBottom, c.leftTop);
        if result.None? then None else Some(PixelAt(result.value, texWidth, texHeight))
    }

    // Where the point of the surface is that lies x half widths to the right
    // of its centre, and y half heights above.
    ghost function PlaceOf(trig: Trig, x: real, y: real): Vec3
      reads this`position, this`rotation, this`scale
    {
      var turn := trig.turn(rotation);
      Spanned(trig.point(position), turn.x.Times(scale.x), turn.y.Times(scale.y), x, y)
    }

    // The ray meets the surface that far away, in a pixel counted from the
    // left top.
    ghost predicate MetAt(o: Vec3, d: Vec3, trig: Trig, h: PixelHit)
      reads this`texWidth, this`texHeight, this`position, this`rotation, this`scale
    {
      exists x, y :: MetIn(o, d, trig, h, x, y)
    }

    ghost predicate MetIn(o: Vec3, d: Vec3, trig: Trig, h: PixelHit, x: real, y: real)
      reads this`texWidth, this`texHeight, this`position, this`rotation, this`scale
    {
      && -1.0 <= x <= 1.0 && -1.0 <= y <= 1.0 && h.distance >= 0.0 && At(o, d, h.distance) == PlaceOf(trig, x, y)
      && h.x == texWidth as real * ((x + 1.0) / 2.0) && h.y == texHeight as real * ((1.0 - y) / 2.0)
    }

    lemma CornersArePlaces(trig: Trig)
      ensures var c := CornersIn(trig);
              && c.leftBottom == PlaceOf(trig, -1.0, -1.0) && c.rightBottom == PlaceOf(trig, 1.0, -1.0)
              && c.leftTop == PlaceOf(trig, -1.0, 1.0)
    {
      CornerIs(trig, -1.0, -1.0);
      CornerIs(trig, 1.0, -1.0);
      CornerIs(trig, -1.0, 1.0);
    }

    lemma CornerIs(trig: Trig, x: real, y: real)
      ensures InGeom(trig, Vec3(x, y, 0.0)) == PlaceOf(trig, x, y)
    {
    }

    lemma Coordinated(o: Vec3, d: Vec3, trig: Trig, i: SurfaceInfo)
      ensures var c := CornersIn(trig);
              OnPlane(o.Minus(c.leftBottom), d, c.rightBottom.Minus(c.leftBottom),
                      c.leftTop.Minus(c.leftBottom), i) <==>
              At(o, d, i.distance) == PlaceOf(trig, 2.0 * i.u - 1.0, 2.0 * i.v - 1.0)
    {
      hide CornersIn, OnPlane, At, Spanned;
      CornersArePlaces(trig);
      var turn := trig.turn(rotation);
      OnPlaneIff(o, d, trig.point(position), turn.x.Times(scale.x), turn.y.Times(scale.y), i);
    }

    // The test is right: it tells exactly where the ray meets the surface.
    lemma HitIff(o: Vec3, d: Vec3, trig: Trig, h: PixelHit)
      requires Pointable() ==> CornersIn(trig).Aslant(d)
      ensures CheckIntersection(o, d, trig) == Some(h) <==> texture.Some? && role != Cursor && MetAt(o, d, trig, h)
    {
      hide WithSurface, Det, OnPlane, CornersIn, PlaceOf, At;
      var c := CornersIn(trig);
      if texture.Some? && role != Cursor {
        if CheckIntersection(o, d, trig) == Some(h) {
          var i := WithSurface(o, d, c.leftBottom, c.rightBottom, c.leftTop).value;
          WithSurfaceIff(o, d, c.leftBottom, c.rightBottom, c.leftTop, i);
          Coordinated(o, d, trig, i);
          var x, y := 2.0 * i.u - 1.0, 2.0 * i.v - 1.0;
          assert (x + 1.0) / 2.0 == i.u && (1.0 - y) / 2.0 == 1.0 - i.v;
          assert MetIn(o, d, trig, h, x, y);
        }
        if MetAt(o, d, trig, h) {
          var x, y :| MetIn(o, d, trig, h, x, y);
          var i := SurfaceInfo(h.distance, (x + 1.0) / 2.0, (y + 1.0) / 2.0);
          assert 2.0 * i.u - 1.0 == x && 2.0 * i.v - 1.0 == y && 1.0 - i.v == (1.0 - y) / 2.0;
          Coordinated(o, d, trig, i);
          WithSurfaceIff(o, d, c.leftBottom, c.rightBottom, c.leftTop, i);
          assert WithSurface(o, d, c.leftBottom, c.rightBottom, c.leftTop) == Some(i);
          assert PixelAt(i, texWidth, texHeight) == h;
        }
      }
    }

    // Where the renderer is to put a point of the unit square: it is stretched
    // to the size of the surface, turned, and moved to its place and by its
    // offset in pixels, downwards; all of an inactive surface is nowhere.
    ghost function Seen(trig: Trig, p: Vec3): Vec4
      reads this`position, this`rotation, this`scale, this`offset, this`isActive
    {
      if !isActive then NOWHERE
      else
        var turn := trig.turn(rotation);
        Vec4(trig.point(position)
             .Plus(Downwards(offset))
             .Plus(turn.x.Times(scale.x * p.x)).Plus(turn.y.Times(scale.y * p.y)).Plus(turn.z.Times(scale.z * p.z)),
             1.0)
    }

    // The unit square reaches from -1 to 1: on show it is twice as wide and as
    // high as `scale`.
    lemma WidthSeen(trig: Trig, k: real)
      requires isActive
      ensures Seen(trig, Vec3(1.0, k, 0.0)).v.Minus(Seen(trig, Vec3(-1.0, k, 0.0)).v) ==
              trig.turn(rotation).x.Times(2.0 * scale.x)
    {
    }

    lemma HeightSeen(trig: Trig, k: real)
      requires isActive
      ensures Seen(trig, Vec3(k, 1.0, 0.0)).v.Minus(Seen(trig, Vec3(k, -1.0, 0.0)).v) ==
              trig.turn(rotation).y.Times(2.0 * scale.y)
    {
    }

    // A frame puts every point there.
    ghost predicate InPlace(f: Frame)
      reads this`position, this`rotation, this`scale, this`offset, this`isActive
    {
      f.model.Some? && forall trig: Trig, p :: f.model.value.Apply(trig, p) == Seen(trig, p)
    }

    lemma ModelSeen(trig: Trig, p: Vec3)
      ensures LocalModel().Apply(trig, p) == Seen(trig, p)
    {
      hide Translated, Rotated;
      if isActive {
        assert LocalModel().shift == Downwards(offset);
        SeenAt(trig.turn(rotation), scale, trig.point(position), LocalModel().shift, p);
      } else {
        NothingSeen(trig.turn(rotation), trig.point(position).Plus(LocalModel().shift));
      }
    }

    lemma FollowingIsInPlace(f: Frame)
      requires f.model == Some(LocalModel())
      ensures InPlace(f)
    {
      hide Model.Apply, LocalModel, Seen;
      forall trig: Trig, p
        ensures f.model.value.Apply(trig, p) == Seen(trig, p)
      {
        ModelSeen(trig, p);
      }
    }

    // A renderer follows the geometry, whatever becomes of it.
    ghost predicate Follows()
      reads this
    {
      renderer.Some? ==> renderer.value.next.model == Some(LocalModel())
    }

    // Between requests it has the texture as well, whenever there is one.
    ghost predicate Valid()
      reads this
    {
      Follows() && (renderer.Some? && texture.Some? ==> renderer.value.next.texture == CurrentTexture())
    }

    // What is on show is the surface as it is.
    ghost predicate UpToDate()
      reads this
    {
      renderer.Some? ==>
        && renderer.value.shown == Some(renderer.value.next)
        && renderer.value.next == Frame(Some(LocalModel()), CurrentTexture())
    }

    method SyncGeom()
      requires renderer.Some?
      modifies this`renderer
      ensures renderer == Some(Renderer(old(renderer).value.next.(model := Some(LocalModel())),
              old(renderer).value.shown))
    {
      renderer := Some(renderer.value.(next := renderer.value.next.(model := Some(LocalModel()))));
    }

    method CommitRenderer()
      requires renderer.Some?
      modifies this`renderer
      ensures renderer == Some(old(renderer).value.Commit())
    {
      renderer := Some(renderer.value.Commit());
    }

    method UpdatePosAndRot()
      modifies this`position, this`rotation, this`renderer
      ensures Follows()
      ensures position == OnSphere(distance, polar, azimuthal) && rotation == Facing(polar, azimuthal)
      ensures renderer.Some? == old(renderer.Some?)
      ensures renderer.Some? ==>
                && renderer.value.shown == old(renderer.value.shown)
                && renderer.value.next.texture == old(renderer.value.next.texture)
    {
      position := OnSphere(distance, polar, azimuthal);
      rotation := Facing(polar, azimuthal);
      if renderer.Some? {
        SyncGeom();
      }
    }

    method SetTexture()
      requires renderer.Some? && texture.Some?
      modifies this`renderer
      ensures renderer == Some(Renderer(old(renderer).value.next.(texture := CurrentTexture()),
              old(renderer).value.shown))
    {
      renderer := Some(renderer.value.(next := renderer.value.next.(texture := CurrentTexture())));
    }

    // A session has come up; a cursor, too, goes back to the sphere for now.
    method InitRenderer()
      modifies this`position, this`rotation, this`renderer
      ensures Valid() && renderer.Some?
      ensures texture.Some? ==> UpToDate()
      ensures texture.None? ==> renderer.value.shown.None?
      ensures texture.Some? && renderer.Some? ==> renderer.value.shown.Some? && InPlace(renderer.value.shown.value)
    {
      renderer := Some(Renderer(Frame(None, None), None));
      UpdatePosAndRot();
      if texture.Some? {
        SetTexture();
        CommitRenderer();
        FollowingIsInPlace(renderer.value.next);
      }
    }

    method SessionDisconnected()
      modifies this`renderer
      ensures Valid() && renderer.None?
    {
      renderer := None;
    }

    method SetTextureSize(width: nat, height: nat)
      modifies this`texWidth, this`texHeight, this`scale, this`renderer
      ensures old(Follows()) ==> Follows()
      ensures texWidth == width && texHeight == height
      ensures scale == ScaleOf(width, height, old(scale.z))
      ensures renderer.Some? == old(renderer.Some?)
      ensures renderer.Some? ==> renderer.value.next.texture == old(renderer.value.next.texture)
    {
      texWidth, texHeight := width, height;
      scale := Vec3(width as real / PIXEL_PER_METER, scale.y, scale.z);
      scale := Vec3(scale.x, height as real / PIXEL_PER_METER, scale.z);
      if renderer.Some? {
        SyncGeom();
      }
    }

    method SetOffset(o: Vec3)
      requires Valid()
      modifies this`pendingOffset
      ensures Valid() && pendingOffset == Some(o)
    {
      pendingOffset := Some(o);
    }

    method Attach(b: Option<Buffer>)
      requires Valid()
      modifies this`pendingBuffer
      ensures Valid() && pendingBuffer == b
    {
      pendingBuffer := b;
    }

    method SetActive(active: bool)
      requires Valid()
      modifies this`isActive, this`renderer
      ensures Valid() && isActive == active
      ensures renderer.Some? == old(renderer.Some?)
      ensures renderer.Some? ==> renderer.value.shown == Some(renderer.value.next)
      ensures texture.Some? ==> UpToDate()
      ensures renderer.Some? ==> renderer.value.shown.Some? && InPlace(renderer.value.shown.value)
    {
      isActive := active;
      if renderer.Some? {
        SyncGeom();
        CommitRenderer();
        FollowingIsInPlace(renderer.value.next);
      }
    }

    method Move(polarBy: real, azimuthalBy: real)
      requires Valid()
      modifies this`polar, this`azimuthal, this`position, this`rotation, this`renderer
      ensures Valid() && polar == old(polar) + polarBy && azimuthal == old(azimuthal) + azimuthalBy
      ensures position == OnSphere(distance, polar, azimuthal) && rotation == Facing(polar, azimuthal)
      ensures renderer.Some? == old(renderer.Some?)
      ensures renderer.Some? ==> renderer.value.shown == Some(renderer.value.next)
      ensures texture.Some? ==> UpToDate()
      ensures renderer.Some? ==> renderer.value.shown.Some? && InPlace(renderer.value.shown.value)
    {
      polar, azimuthal := polar + polarBy, azimuthal + azimuthalBy;
      UpdatePosAndRot();
      if renderer.Some? {
        CommitRenderer();
        FollowingIsInPlace(renderer.value.next);
      }
    }

    // A cursor is placed by its left top corner.
    method MoveCursor(leftTop: Vec3, rot: Rotation)
      requires Valid()
      modifies this`position, this`rotation, this`renderer
      ensures Valid() && rotation == rot
      ensures position == Placed(Vec3(leftTop.x + texWidth as real / 2.0 / PIXEL_PER_METER,
                                      leftTop.y - texHeight as real / 2.0 / PIXEL_PER_METER, leftTop.z))
      ensures renderer.Some? == old(renderer.Some?)
      ensures renderer.Some? ==> renderer.value.shown == Some(renderer.value.next)
      ensures texture.Some? ==> UpToDate()
      ensures renderer.Some? ==> renderer.value.shown.Some? && InPlace(renderer.value.shown.value)
    {
      var p := leftTop;
      p := p.(x := p.x + texWidth as real / 2.0 / PIXEL_PER_METER);
      p := p.(y := p.y - texHeight as real / 2.0 / PIXEL_PER_METER);
      position, rotation := Placed(p), rot;
      if renderer.Some? {
        SyncGeom();
        CommitRenderer();
        FollowingIsInPlace(renderer.value.next);
      }
    }

    // A cursor takes no place in the stack.
    method UpdateDistanceByLayerIndex(index: nat) returns (consumed: bool)
      requires Valid()
      modifies this`distance, this`position, this`rotation, this`renderer
      ensures Valid() && consumed == (role != Cursor)
      ensures consumed ==>
                && distance == DistanceOf(index) && position == OnSphere(distance, polar, azimuthal)
                && (texture.Some? ==> UpToDate())
      ensures !consumed ==> unchanged(this)
      ensures renderer.Some? == old(renderer.Some?)
      ensures consumed && texture.Some? && renderer.Some? ==>
              renderer.value.shown.Some? && InPlace(renderer.value.shown.value)
    {
      if role == Cursor {
        return false;
      }
      distance := MIN_DISTANCE + LAYER_Z_OFFSET * index as real;
      UpdatePosAndRot();
      if renderer.Some? && texture.Some? {
        CommitRenderer();
        FollowingIsInPlace(renderer.value.next);
      }
      consumed := true;
    }

    method CommitOffset()
      requires Follows()
      modifies this`offset, this`pendingOffset, this`renderer
      ensures Follows() && pendingOffset.None? && renderer.Some? == old(renderer.Some?)
      ensures renderer.Some? ==> renderer.value.next.texture == old(renderer.value.next.texture)
      ensures offset == if old(pendingOffset).Some? then old(offset).Plus(old(pendingOffset).value) else old(offset)
    {
      if pendingOffset.Some? {
        offset := offset.Plus(pendingOffset.value);
        pendingOffset := None;
        if renderer.Some? {
          SyncGeom();
        }
      }
    }

    // A buffer of unknown format takes away the texture there was.
    method CommitBuffer()
      requires Follows()
      modifies this`texture, this`texWidth, this`texHeight, this`scale, this`pendingBuffer, this`renderer
      ensures Follows() && pendingBuffer.None? && renderer.Some? == old(renderer.Some?)
      ensures renderer.Some? ==> renderer.value.next.texture == old(renderer.value.next.texture)
      ensures old(pendingBuffer).None? ==>
                texture == old(texture) && texWidth == old(texWidth) && texHeight == old(texHeight)
                    && scale == old(scale)
      ensures old(pendingBuffer).Some? ==>
                var b := old(pendingBuffer).value;
                && (b.supported ==> scale == ScaleOf(b.width, b.height, old(scale).z))
                && (!b.supported ==> scale == old(scale))
                && CurrentTexture() == if b.supported then Some(Texture(b.pixels, b.width, b.height)) else None
    {
      if pendingBuffer.Some? {
        if texture.Some? {
          texture := None;
        }
        var b := pendingBuffer.value;
        if b.supported {
          texture := Some(b.pixels);
          SetTextureSize(b.width, b.height);
        }
        pendingBuffer := None;
      }
    }

    // After a commit, what is on show is the surface as it is, whenever it
    // has a texture.
    method Commit()
      requires Valid()
      modifies this`offset, this`pendingOffset, this`renderer
      modifies this`texture, this`texWidth, this`texHeight, this`scale, this`pendingBuffer
      ensures Valid() && pendingOffset.None? && pendingBuffer.None? && renderer.Some? == old(renderer.Some?)
      ensures offset == if old(pendingOffset).Some? then old(offset).Plus(old(pendingOffset).value) else old(offset)
      ensures CurrentTexture() == match old(pendingBuffer)
                case None => old(CurrentTexture())
                case Some(b) => if b.supported then Some(Texture(b.pixels, b.width, b.height)) else None
      ensures var b := old(pendingBuffer);
              scale == if b.Some? && b.value.supported then ScaleOf(b.value.width, b.value.height, old(scale).z)
                  else old(scale)
      ensures old(pendingBuffer).Some? && old(pendingBuffer).value.supported ==>
                && scale.x == old(pendingBuffer).value.width as real / 9000.0
                && scale.y == old(pendingBuffer).value.height as real / 9000.0
      ensures texture.Some? ==> UpToDate()
      ensures texture.Some? && renderer.Some? ==> renderer.value.shown.Some? && InPlace(renderer.value.shown.value)
    {
      CommitOffset();
      CommitBuffer();
      if renderer.Some? && texture.Some? {
        SetTexture();
        CommitRenderer();
        FollowingIsInPlace(renderer.value.next);
      }
    }

    method SetActivated(activated: bool)
      modifies this`activated
      ensures this.activated == activated
      ensures old(Valid()) ==> Valid()
    {
      this.activated := activated;
    }

    method SetRole(role: Role, toplevel: bool)
      modifies this`role, this`toplevel
      ensures this.role == role && this.toplevel == toplevel
      ensures old(Valid()) ==> Valid()
    {
      this.role, this.toplevel := role, toplevel;
    }
  }
}
