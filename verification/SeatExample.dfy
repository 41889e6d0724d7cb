// A drag that is asked for twice: the seat's one way to break the alternation
// of enters and leaves can be reached.
module SeatExample {
  import opened Common
  import opened Intersections
  import opened Rotations
  import opened Surfaces
  import opened Servers
  import opened RayCasters
  import opened Seats

  const AHEAD := Vec3(0.0, 0.0, 1.0)
  const STRAIGHT := Turn(Vec3(1.0, 0.0, 0.0), Vec3(0.0, 1.0, 0.0), AHEAD)
  const TRIG := Trig(_ => AHEAD, _ => STRAIGHT)
  const SIGHT := Sight(ORIGIN, AHEAD, TRIG, map[])

  // A surface of one metre about the point ahead, seen straight on.
  ghost predicate Facing(s: Surface)
    reads s`scale, s`texWidth, s`texHeight, s`texture, s`role
  {
    s.scale == Vec3(1.0, 1.0, 0.0) && s.texWidth == 9000 && s.texHeight == 9000 && s.Pointable()
  }

  lemma Looks(position: Position, rotation: Rotation)
    ensures TRIG.point(position) == AHEAD && TRIG.turn(rotation) == STRAIGHT
  {
  }

  lemma Ahead(x: real, y: real)
    ensures Spanned(AHEAD, STRAIGHT.x.Times(1.0), STRAIGHT.y.Times(1.0), x, y) == Vec3(x, y, 1.0)
    ensures At(ORIGIN, AHEAD, 1.0) == AHEAD
  {
  }

  lemma Straight(s: Surface, x: real, y: real)
    requires Facing(s)
    ensures s.PlaceOf(TRIG, x, y) == Vec3(x, y, 1.0)
  {
    hide Spanned, Vec3.Times;
    Looks(s.position, s.rotation);
    Ahead(x, y);
  }

  lemma Square(c: Corners)
    requires c == Corners(Vec3(-1.0, -1.0, 1.0), Vec3(1.0, -1.0, 1.0), Vec3(-1.0, 1.0, 1.0))
    ensures c.Aslant(AHEAD)
  {
    hide Vec3.Dot, Vec3.Cross;
    assert c.leftTop.Minus(c.leftBottom) == Vec3(0.0, 2.0, 0.0);
    assert c.rightBottom.Minus(c.leftBottom) == Vec3(2.0, 0.0, 0.0);
    Crossed();
  }

  lemma Crossed()
    ensures AHEAD.Cross(Vec3(0.0, 2.0, 0.0)).Dot(Vec3(2.0, 0.0, 0.0)) == -4.0
  {
  }

  lemma IsMet(s: Surface)
    requires Facing(s)
    ensures s.CornersIn(TRIG).Aslant(AHEAD)
    ensures s.CheckIntersection(ORIGIN, AHEAD, TRIG) == Some(PixelHit(1.0, 4500.0, 4500.0))
  {
    hide Surface.CornersIn, Surface.PlaceOf, Surface.CheckIntersection, Corners.Aslant, At;
    s.CornersArePlaces(TRIG);
    Straight(s, -1.0, -1.0);
    Straight(s, 1.0, -1.0);
    Straight(s, -1.0, 1.0);
    Square(s.CornersIn(TRIG));
    Straight(s, 0.0, 0.0);
    Ahead(0.0, 0.0);
    assert s.MetIn(ORIGIN, AHEAD, TRIG, PixelHit(1.0, 4500.0, 4500.0), 0.0, 0.0);
    s.HitIff(ORIGIN, AHEAD, TRIG, PixelHit(1.0, 4500.0, 4500.0));
  }

  // The only object that is hit gets the focus.
  lemma OnlyHit(list: seq<Id>, hits: map<Id, real>, i: Id, focused: Option<Id>, said: seq<Signal>, live: set<Id>)
    requires Refocused(list, hits, None, live, focused, said) && i in list && hits.Keys == {i}
    ensures focused == Some(i)
  {
    assert i in hits;
  }

  method Textured(pi: real) returns (s: Surface)
    ensures fresh(s) && s.Valid() && s.id == 0 && s.client == 7 && s.role == Role.Default && !s.activated
    ensures Facing(s)
  {
    s := new Surface(0, 7, false, pi / 2.0);
    s.Attach(Some(Buffer(0, 9000, 9000, true)));
    s.Commit();
  }

  method Empty(pi: real) returns (seat: ServerSeat)
    requires pi > 0.0
    ensures fresh(seat) && fresh(seat.server) && fresh(seat.ray) && seat.Valid() && seat.signals == []
    ensures seat.state == Resting && seat.focused.None? && seat.keyboard.None? && seat.cursor.None?
    ensures seat.server.live == map[] && seat.server.liveApps == map[]
    ensures seat.server.surfaces == [] && seat.server.boundedApps == []
  {
    var server := new Server();
    var ray := new RayCaster(pi);
    seat := new ServerSeat(server, ray);
  }

  lemma OneHit(server: Server)
    requires server.live.Keys == {0} && server.liveApps == map[]
    requires Facing(server.live[0])
    ensures server.Aimed(SIGHT) && server.Hits(SIGHT).Keys == {0}
  {
    hide Surface.CornersIn, Surface.CheckIntersection, Corners.Aslant;
    IsMet(server.live[0]);
  }

  // One surface with a texture, in front of the ray.
  method Show(pi: real) returns (seat: ServerSeat)
    requires pi > 0.0
    ensures fresh(seat) && fresh(seat.server) && fresh(seat.ray) && fresh(seat.server.live.Values)
    ensures seat.Valid() && seat.state == Resting && seat.focused.None? && seat.signals == []
    ensures seat.server.live.Keys == {0} && seat.server.liveApps == map[] && seat.server.live[0].client == 7
    ensures seat.server.Aimed(SIGHT) && seat.server.Hits(SIGHT).Keys == {0}
  {
    hide ServerSeat.Valid, Server.Hits, Server.Aimed, Surface.Valid, Facing;
    seat := Empty(pi);
    var s := Textured(pi);
    seat.SurfaceCreated(s);
    OneHit(seat.server);
  }

  // The pointer comes to the surface, its client starts a drag and starts it
  // again: the surface is left twice with no enter between.
  method SecondDragLeavesTwice(pi: real) returns (seat: ServerSeat)
    requires pi > 0.0
    ensures seat.signals == [Enter(0), Motion(0), Leave(0), Leave(0)] && !Bracketed(seat.signals)
  {
    hide ServerSeat.Valid, Server.Hits, Bracketed;
    seat := Show(pi);
    ghost var hits := seat.server.Hits(SIGHT);
    ghost var _ := seat.MoveRelPointing(0.0, 0.0, SIGHT);
    ListedFocus(seat, hits);
    seat.RequestStartMove(7);
    seat.RequestStartMove(7);
  }

  lemma ListedFocus(seat: ServerSeat, hits: map<Id, real>)
    requires seat.Valid() && seat.server.live.Keys == {0} && hits.Keys == {0} && seat.Live() == {0}
    requires Refocused(seat.server.surfaces + seat.server.boundedApps, hits, None, seat.Live(), seat.focused,
             seat.signals)
    ensures seat.focused == Some(0) && seat.signals == [Enter(0), Motion(0)]
  {
    assert 0 in seat.server.live;
    assert 0 in seat.server.surfaces + seat.server.boundedApps;
    OnlyHit(seat.server.surfaces + seat.server.boundedApps, hits, 0, seat.focused, seat.signals, seat.Live());
  }
}
