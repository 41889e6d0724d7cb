// The seat: what the pointer is on, what is being dragged, who has the
// keyboard, and what has been said to whom about it.
module Seats {
  import opened Common
  import opened Intersections
  import opened Surfaces
  import opened Servers
  import opened RayCasters

  datatype Signal =
    | Enter(id: Id)
    | Leave(id: Id)
    | Motion(id: Id)
    | Button(id: Id)
    | Axis(id: Id)
    | KeyEnter(id: Id)
    | KeyLeave(id: Id)
    | Gone(id: Id)

  // ---- what the signals add up to ------------------------------------------------

  ghost function EnteredAfter(before: set<Id>, s: Signal): set<Id> {
    if s.Enter? then before + {s.id} else if s.Leave? || s.Gone? then before - {s.id} else before
  }

  ghost function KeyedAfter(before: set<Id>, s: Signal): set<Id> {
    if s.KeyEnter? then before + {s.id} else if s.KeyLeave? || s.Gone? then before - {s.id} else before
  }

  // The live objects that have been entered and not left.
  ghost function Entered(signals: seq<Signal>): set<Id> {
    if signals == [] then {} else EnteredAfter(Entered(signals[..|signals| - 1]), signals[|signals| - 1])
  }

  // The live surfaces that have an unmatched keyboard enter.
  ghost function Keyed(signals: seq<Signal>): set<Id> {
    if signals == [] then {} else KeyedAfter(Keyed(signals[..|signals| - 1]), signals[|signals| - 1])
  }

  // May this be said, with these entered and these having the keyboard?
  ghost predicate InOrder(entered: set<Id>, keyed: set<Id>, s: Signal) {
    if s.Enter? then entered == {}
    else if s.Leave? || s.Motion? then s.id in entered
    else if s.KeyEnter? then keyed == {}
    else if s.KeyLeave? then s.id in keyed
    else true
  }

  // Enters and leaves alternate, one object at a time, with every motion
  // between them; and so it is with the keyboard.
  ghost predicate Bracketed(signals: seq<Signal>) {
    forall n :: 0 <= n < |signals| ==> InOrder(Entered(signals[..n]), Keyed(signals[..n]), signals[n])
  }

  lemma SaidAddsUp(signals: seq<Signal>, s: Signal)
    ensures Entered(signals + [s]) == EnteredAfter(Entered(signals), s)
    ensures Keyed(signals + [s]) == KeyedAfter(Keyed(signals), s)
  {
    var more := signals + [s];
    assert more[..|more| - 1] == signals;
  }

  lemma Said(signals: seq<Signal>, s: Signal)
    ensures Entered(signals + [s]) == EnteredAfter(Entered(signals), s)
    ensures Keyed(signals + [s]) == KeyedAfter(Keyed(signals), s)
    ensures Bracketed(signals + [s]) <==> Bracketed(signals) && InOrder(Entered(signals), Keyed(signals), s)
  {
    hide Entered, Keyed, EnteredAfter, KeyedAfter, InOrder;
    SaidAddsUp(signals, s);
    var more := signals + [s];
    assert more[..|signals|] == signals && more[|signals|] == s;
    assert forall n :: 0 <= n < |signals| ==> more[..n] == signals[..n] && more[n] == signals[n];
  }

  // At most one object is entered, and at most one surface has the keyboard.
  lemma {:induction false} OneAtATime(signals: seq<Signal>)
    requires Bracketed(signals)
    ensures forall i, j :: i in Entered(signals) && j in Entered(signals) ==> i == j
    ensures forall i, j :: i in Keyed(signals) && j in Keyed(signals) ==> i == j
  {
    if signals != [] {
      var init, last := signals[..|signals| - 1], signals[|signals| - 1];
      assert signals == init + [last];
      Said(init, last);
      OneAtATime(init);
    }
  }

  ghost predicate Ends(s: Signal, i: Id) {
    (s.Leave? || s.Gone?) && s.id == i
  }

  // To be entered is to have been entered at some time and not left since.
  lemma {:induction false} EnteredSince(signals: seq<Signal>, i: Id)
    ensures i in Entered(signals) <==>
            exists m :: 0 <= m < |signals| && signals[m] == Enter(i) && forall k :: m < k < |signals| ==>
                !Ends(signals[k], i)
  {
    if signals != [] {
      var init, last := signals[..|signals| - 1], signals[|signals| - 1];
      EnteredSince(init, i);
      if last == Enter(i) {
        assert signals[|signals| - 1] == Enter(i);
      } else if i in Entered(signals) {
        var m :| 0 <= m < |init| && init[m] == Enter(i) && forall k :: m < k < |init| ==> !Ends(init[k], i);
        assert signals[m] == Enter(i) && forall k :: m < k < |init| ==> signals[k] == init[k];
      }
    }
  }

  // Between two enters the first object is left, or dies.
  lemma EntersAlternate(signals: seq<Signal>, m: nat, n: nat)
    requires Bracketed(signals) && m < n < |signals| && signals[m].Enter? && signals[n].Enter?
    ensures exists k :: m < k < n && Ends(signals[k], signals[m].id)
  {
    var before := signals[..n];
    EnteredSince(before, signals[m].id);
    assert before[m] == Enter(signals[m].id) && signals[m].id !in Entered(before);
    var k :| m < k < |before| && Ends(before[k], signals[m].id);
    assert Ends(signals[k], signals[m].id);
  }

  // A motion, or a leave, is told only to an object that was entered and not
  // left since.
  lemma MotionIsInside(signals: seq<Signal>, n: nat)
    requires Bracketed(signals) && n < |signals| && (signals[n].Motion? || signals[n].Leave?)
    ensures exists m :: 0 <= m < n && signals[m] == Enter(signals[n].id) &&
              forall k :: m < k < n ==> !Ends(signals[k], signals[n].id)
  {
    var i, before := signals[n].id, signals[..n];
    EnteredSince(before, i);
    assert i in Entered(before);
    var m :| 0 <= m < |before| && before[m] == Enter(i) && forall k :: m < k < |before| ==> !Ends(before[k], i);
    assert signals[m] == Enter(i) && forall k :: m < k < n ==> before[k] == signals[k];
  }

  // ---- what is said when the focus or the keyboard moves ---------------------------

  function Leaving(focused: Option<Id>, live: set<Id>): seq<Signal> {
    if focused.Some? && focused.value in live then [Leave(focused.value)] else []
  }

  function Pointing(focused: Option<Id>, live: set<Id>, i: Id): seq<Signal> {
    (if focused == Some(i) then [] else Leaving(focused, live) + [Enter(i)]) + [Motion(i)]
  }

  function KeyLeaving(keyboard: Option<Id>, live: set<Id>): seq<Signal> {
    if keyboard.Some? && keyboard.value in live then [KeyLeave(keyboard.value)] else []
  }

  function Keying(keyboard: Option<Id>, live: set<Id>, i: Id): seq<Signal> {
    if keyboard == Some(i) then [] else KeyLeaving(keyboard, live) + [KeyEnter(i)]
  }

  // The focus has gone from `was` to the nearest entry of the list that is hit,
  // with nothing else said.
  ghost predicate Refocused(
    list: seq<Id>, hits: map<Id, real>, was: Option<Id>, live: set<Id>, focused: Option<Id>, said: seq<Signal>)
  {
    exists nearest ::
      && IsNearest(list, hits, nearest)
      && if nearest.Some? then focused == Some(nearest.value.id) && said == Pointing(was, live, nearest.value.id)
         else focused == None && said == Leaving(was, live)
  }

  // In the source, DEFAULT and MOVING.
  datatype State = Resting | Moving

  ghost function Only(i: Option<Id>, live: set<Id>): set<Id> {
    if i.Some? && i.value in live then {i.value} else {}
  }

  class ServerSeat {
    const server: Server
    const ray: RayCaster
    var state: State
    var focused: Option<Id>
    var keyboard: Option<Id>
    var cursor: Option<Id>
    var cursorDistance: real
    var hotspot: Vec3
    ghost var signals: seq<Signal>

    constructor (server: Server, ray: RayCaster)
      requires server.Valid() && ray.Valid()
      requires forall i :: i in server.live ==> !server.live[i].activated && server.live[i].role != Role.Cursor
      ensures this.server == server && this.ray == ray && Valid() && signals == []
      ensures state == Resting && focused.None? && keyboard.None? && cursor.None?
    {
      this.server, this.ray := server, ray;
      state, focused, keyboard, cursor, cursorDistance, signals := Resting, None, None, None, 0.0, [];
      hotspot := ORIGIN;
    }

    function Live(): set<Id>
      reads server`live, server`liveApps
    {
      server.live.Keys + server.liveApps.Keys
    }

    // The pointer is on the focused object, unless that is being dragged.
    ghost predicate PointerOk()
      reads this`state, this`focused, this`signals, server`live, server`liveApps
    {
      Entered(signals) == if state == Resting then Only(focused, Live()) else {}
    }

    // The keyboard is with one surface, and the activated toplevel is its.
    ghost predicate KeyboardOk()
      reads this`keyboard, this`signals, server`live, server.live.Values`toplevel, server.live.Values`activated
    {
      && Keyed(signals) == Only(keyboard, server.live.Keys)
      && forall i :: i in server.live ==> (server.live[i].activated <==> server.live[i].toplevel && keyboard == Some(i))
    }

    // Of the surfaces that are cursors, the one in use is on show.
    ghost predicate CursorOk()
      reads this`cursor, server`live, server.live.Values`role, server.live.Values`isActive
    {
      && (cursor.Some? && cursor.value in server.live ==> server.live[cursor.value].role == Role.Cursor)
      && forall i :: i in server.live && server.live[i].role == Role.Cursor ==>
           (server.live[i].isActive <==> cursor == Some(i))
    }

    ghost predicate Valid()
      reads this, ray, server, server.live.Values
    {
      server.Valid() && ray.Valid() && Bracketed(signals) && PointerOk() && KeyboardOk() && CursorOk()
    }

    ghost method Say(s: Signal)
      requires Bracketed(signals) && InOrder(Entered(signals), Keyed(signals), s)
      modifies this`signals
      ensures Bracketed(signals) && signals == old(signals) + [s]
      ensures Entered(signals) == EnteredAfter(Entered(old(signals)), s)
              && Keyed(signals) == KeyedAfter(Keyed(old(signals)), s)
    {
      Said(signals, s);
      signals := signals + [s];
    }

    // ---- keyboard ------------------------------------------------------------------

    // A dead surface is not left, and not forgotten either.
    method TryLeaveKeyboard()
      requires Valid()
      modifies this`keyboard, this`signals, server.live.Values`activated
      ensures Valid() && Entered(signals) == Entered(old(signals))
      ensures keyboard == if old(keyboard).Some? && old(keyboard).value in server.live then None else old(keyboard)
      ensures signals == old(signals) + KeyLeaving(old(keyboard), server.live.Keys)
    {
      hide Server.Valid, Entered, Keyed, Bracketed;
      if keyboard.None? || keyboard.value !in server.live {
        return;
      }
      var i := keyboard.value;
      if server.live[i].toplevel {
        server.SetActivated(i, false);
      }
      Say(KeyLeave(i));
      keyboard := None;
    }

    // A toplevel that gets the keyboard comes to the front.
    method OnFocus(i: Id)
      requires server.Valid() && i in server.live
      modifies server`surfaces, server`stamps, server`clock
      modifies server.live.Values`distance, server.live.Values`position, server.live.Values`rotation
      modifies server.live.Values`renderer, server.live.Values`activated
      ensures server.Valid()
      ensures forall j :: j in server.live ==>
                server.live[j].activated == if j == i && server.live[i].toplevel then true
                    else old(server.live[j].activated)
      ensures server.live[i].toplevel ==> server.surfaces != [] && server.surfaces[0] == i
      ensures server.live[i].toplevel && server.live[i].role != Role.Cursor ==> server.live[i].distance == MIN_DISTANCE
    {
      hide Server.Valid;
      if server.live[i].toplevel {
        server.RaiseSurfaceTop(i);
        server.SetActivated(i, true);
      }
    }

    // The surface that gets the keyboard has been entered last.
    method EnterKeyboard(i: Id)
      requires Valid() && i in server.live && (keyboard.None? || keyboard.value !in server.live)
      modifies this`keyboard, this`signals
      modifies server`surfaces, server`stamps, server`clock
      modifies server.live.Values`distance, server.live.Values`position, server.live.Values`rotation
      modifies server.live.Values`renderer, server.live.Values`activated
      ensures Valid() && keyboard == Some(i) && Entered(signals) == Entered(old(signals))
      ensures signals == old(signals) + [KeyEnter(i)]
      ensures server.live[i].toplevel ==>
                && server.surfaces != [] && server.surfaces[0] == i
                && (server.live[i].role != Role.Cursor ==> server.live[i].distance == MIN_DISTANCE)
    {
      hide Server.Valid, Entered, Keyed, Bracketed;
      OnFocus(i);
      Say(KeyEnter(i));
      keyboard := Some(i);
    }

    method SetKeyboardFocusedSurface(i: Id)
      requires Valid() && i in server.live
      modifies this`keyboard, this`signals
      modifies server`surfaces, server`stamps, server`clock
      modifies server.live.Values`distance, server.live.Values`position, server.live.Values`rotation
      modifies server.live.Values`renderer, server.live.Values`activated
      ensures Valid() && keyboard == Some(i) && Entered(signals) == Entered(old(signals))
      ensures signals == old(signals) + Keying(old(keyboard), server.live.Keys, i)
      ensures old(keyboard) != Some(i) && server.live[i].toplevel ==>
                && server.surfaces != [] && server.surfaces[0] == i
                && (server.live[i].role != Role.Cursor ==> server.live[i].distance == MIN_DISTANCE)
    {
      hide Valid, Entered, Keyed, Bracketed;
      if keyboard == Some(i) {
        return;
      }
      TryLeaveKeyboard();
      EnterKeyboard(i);
    }

    // ---- cursor ---------------------------------------------------------------------

    // The hot spot of the cursor is where the ray ends; the cursor is turned
    // with the ray.
    ghost predicate CursorFollows(sight: Sight)
      reads this`cursor, this`cursorDistance, this`hotspot, ray`angles, server`live, server.live.Values`position
      reads server.live.Values`rotation, server.live.Values`texWidth, server.live.Values`texHeight
    {
      cursor.Some? && cursor.value in server.live ==>
        var s, tip := server.live[cursor.value], At(sight.origin, sight.direction, cursorDistance).Minus(hotspot);
        && s.rotation == AlongRay(ray.angles.polar, ray.angles.azimuthal)
        && s.position == Placed(Vec3(tip.x + s.texWidth as real / 2.0 / PIXEL_PER_METER,
                                     tip.y - s.texHeight as real / 2.0 / PIXEL_PER_METER, tip.z))
    }

    method MoveCursor(sight: Sight)
      requires Valid() && cursor.Some? && cursor.value in server.live
      modifies server.live.Values`position, server.live.Values`rotation, server.live.Values`renderer
      ensures Valid() && CursorFollows(sight)
    {
      hide Server.Valid, Entered, Keyed, Bracketed;
      var at := sight.origin.Plus(sight.direction.Times(cursorDistance)).Minus(hotspot);
      server.MoveCursor(cursor.value, at, AlongRay(ray.angles.polar, ray.angles.azimuthal));
    }

    // The resource names an activated toplevel, which the source turns into a
    // cursor all the same, and which then stays activated.
    ghost predicate TakesToplevel(resource: Option<Id>)
      reads this`cursor, server`live, server.live.Values`toplevel, server.live.Values`activated
    {
      && resource.Some? && resource.value in server.live && cursor != resource
      && server.live[resource.value].toplevel && server.live[resource.value].activated
    }

    // A surface that was no cursor becomes the one on show.
    method TakeCursor(i: Id, sight: Sight)
      requires Valid() && i in server.live && (cursor.None? || cursor.value !in server.live)
      modifies this`cursor, server.live.Values`role, server.live.Values`toplevel, server.live.Values`isActive
      modifies server.live.Values`position, server.live.Values`rotation, server.live.Values`renderer
      ensures server.Valid() && ray.Valid() && Bracketed(signals) && PointerOk() && CursorOk() && cursor == Some(i)
      ensures KeyboardOk() <==> !(old(server.live[i].toplevel) && old(server.live[i].activated))
      ensures CursorFollows(sight)
    {
      hide Server.Valid, Entered, Keyed, Bracketed;
      cursor := Some(i);
      var at := sight.origin.Plus(sight.direction.Times(cursorDistance)).Minus(hotspot);
      server.ShowCursor(i, at, AlongRay(ray.angles.polar, ray.angles.azimuthal));
    }

    // The surface of the resource, if any, becomes the one cursor on show; its
    // role so far is not asked for.
    method SetSurfaceAsCursor(resource: Option<Id>, hotspotX: int, hotspotY: int, sight: Sight)
      requires Valid()
      modifies this`cursor, this`hotspot
      modifies server.live.Values`role, server.live.Values`toplevel, server.live.Values`isActive
      modifies server.live.Values`position, server.live.Values`rotation, server.live.Values`renderer
      ensures Valid() <==> !old(TakesToplevel(resource))
      ensures server.Valid() && ray.Valid() && Bracketed(signals) && PointerOk() && CursorOk()
      ensures cursor ==
              if resource.Some? && resource.value in server.live then resource
              else if old(cursor).Some? && old(cursor).value in server.live then None else old(cursor)
      ensures hotspot == Vec3(hotspotX as real / 9000.0, -hotspotY as real / 9000.0, 0.0)
      ensures cursor != old(cursor) ==> CursorFollows(sight)
    {
      hide Server.Valid, Entered, Keyed, Bracketed, PointerOk, KeyboardOk, CursorOk;
      hotspot := Vec3(hotspotX as real, -hotspotY as real, 0.0).Times(1.0 / PIXEL_PER_METER);
      if cursor.Some? && cursor.value in server.live {
        if cursor == resource {
          return;
        }
        HideCursor();
      }
      if resource.Some? && resource.value in server.live {
        TakeCursor(resource.value, sight);
      }
    }

    method HideCursor()
      requires Valid() && cursor.Some? && cursor.value in server.live
      modifies this`cursor, server.live.Values`isActive, server.live.Values`renderer
      ensures Valid() && cursor.None?
    {
      hide Server.Valid, Entered, Keyed, Bracketed;
      server.SetActive(cursor.value, false);
      cursor := None;
    }

    // ---- pointer --------------------------------------------------------------------

    // Leaves the focused object, if it is live.
    method LeaveFocused()
      requires Valid() && state == Resting
      modifies this`focused, this`signals
      ensures Valid() && focused.None? && Entered(signals) == {} && Keyed(signals) == Keyed(old(signals))
      ensures signals == old(signals) + Leaving(old(focused), Live())
    {
      hide Server.Valid, Entered, Keyed, Bracketed;
      if focused.Some? && focused.value in Live() {
        Say(Leave(focused.value));
      }
      focused := None;
    }

    // Tells whether the focus has changed; an object that is newly focused
    // has not been entered yet.
    method SetFocusedObj(i: Id) returns (changed: bool)
      requires Valid() && state == Resting && i in Live()
      modifies this`focused, this`signals
      ensures server.Valid() && ray.Valid() && Bracketed(signals) && KeyboardOk() && CursorOk()
      ensures changed == (old(focused) != Some(i)) && focused == Some(i)
      ensures Entered(signals) == if changed then {} else {i}
      ensures signals == old(signals) + if changed then Leaving(old(focused), Live()) else []
    {
      hide Server.Valid, Entered, Keyed, Bracketed;
      if focused == Some(i) {
        return false;
      }
      LeaveFocused();
      focused := Some(i);
      changed := true;
    }

    // The pointer is on an object: it is entered first, if need be.
    method Focus(i: Id)
      requires Valid() && state == Resting && i in Live()
      modifies this`focused, this`signals
      ensures Valid() && focused == Some(i)
      ensures signals + [Motion(i)] == old(signals) + Pointing(old(focused), Live(), i)
    {
      hide Server.Valid, Entered, Keyed, Bracketed;
      var changed := SetFocusedObj(i);
      if changed {
        Say(Enter(i));
      }
    }

    method PointAt(h: Hit)
      requires Valid() && state == Resting && h.id in Live()
      modifies this`focused, this`signals, this`cursorDistance, ray`length
      ensures Valid() && focused == Some(h.id)
      ensures signals == old(signals) + Pointing(old(focused), Live(), h.id)
      ensures cursorDistance == h.distance * 0.98 && ray.length == cursorDistance * 0.9
    {
      hide Server.Valid, Entered, Keyed, Bracketed, Pointing;
      Focus(h.id);
      Say(Motion(h.id));
      cursorDistance := h.distance * 0.98;
      ray.SetLength(cursorDistance * 0.9);
    }

    // Focuses the nearest object that is hit.
    method CheckIntersection(sight: Sight) returns (ghost nearest: Option<Hit>)
      requires Valid() && state == Resting && server.Aimed(sight)
      modifies this`focused, this`signals, this`cursor, this`cursorDistance, this`hotspot, ray`length
      modifies server`surfaces, server`boundedApps, server.live.Values
      ensures Valid()
      ensures IsNearest(server.surfaces + server.boundedApps, old(server.Hits(sight)), nearest)
      ensures forall i, t :: old(server.SurfaceMet(sight, i, t)) ==> nearest.Some? && nearest.value.distance <= t
      ensures nearest.Some? && nearest.value.id in server.live ==>
                old(server.SurfaceMet(sight, nearest.value.id, nearest.value.distance))
      ensures focused == (if nearest.Some? then Some(nearest.value.id) else None)
      ensures signals == old(signals) + (if nearest.Some? then Pointing(old(focused), Live(), nearest.value.id)
                                         else Leaving(old(focused), Live()))
      ensures nearest.Some? ==>
                cursorDistance == nearest.value.distance * 0.98 && ray.length == cursorDistance * 0.9
                && forall i :: i in server.live ==> unchanged(server.live[i])
      ensures nearest.Some? ==> Shown(nearest.value.id)
      ensures nearest.None? ==> cursor.None? || cursor.value !in server.live
    {
      hide Server.Valid, Server.Hits, Server.SurfaceMet, Server.Aimed, Entered, Keyed, Bracketed, IsNearest;
      hide PointerOk, KeyboardOk, CursorOk;
      var found := NearestOf(sight);
      nearest := found;
      assert forall i, t :: server.SurfaceMet(sight, i, t) == old(server.SurfaceMet(sight, i, t));
      if found.Some? {
        PointAt(found.value);
      } else {
        LeaveFocused();
        SetSurfaceAsCursor(None, 0, 0, sight);
      }
    }

    // A surface that can be seen and is not the cursor, or an app.
    ghost predicate Shown(i: Id)
      reads server`live, server`liveApps, server.live.Values`role, server.live.Values`texture
    {
      i in server.liveApps ||
      (i in server.live && server.live[i].role != Role.Cursor && server.live[i].texture.Some?)
    }

    method NearestOf(sight: Sight) returns (nearest: Option<Hit>)
      requires Valid() && server.Aimed(sight)
      modifies server`surfaces, server`boundedApps
      ensures Valid() && IsNearest(server.surfaces + server.boundedApps, server.Hits(sight), nearest)
      ensures nearest.Some? ==> nearest.value.id in Live() && Shown(nearest.value.id)
      ensures forall i, t :: server.SurfaceMet(sight, i, t) ==> nearest.Some? && nearest.value.distance <= t
      ensures nearest.Some? && nearest.value.id in server.live ==>
                server.SurfaceMet(sight, nearest.value.id, nearest.value.distance)
    {
      hide Server.Valid, Server.Hits, Server.SurfaceMet, Server.Aimed, Entered, Keyed, Bracketed, IsNearest;
      nearest := server.NearestHit(server.Hits(sight));
      server.Separate();
      ghost var list := server.surfaces + server.boundedApps;
      if nearest.Some? {
        server.NearestIsHit(list, server.Hits(sight), nearest);
        server.HitsAreShown(sight, nearest.value.id);
        server.HitsIff(sight, nearest.value.id, nearest.value.distance);
      }
      forall i, t | server.SurfaceMet(sight, i, t)
        ensures nearest.Some? && nearest.value.distance <= t
      {
        server.MetIsLive(sight, i, t);
        server.HitsIff(sight, i, t);
        server.NearestIsLeast(list, server.Hits(sight), nearest, i);
      }
    }

    // The client's object is the one that would be dragged.
    ghost predicate Grabs(client: Id)
      reads this, server`live, server`liveApps
    {
      focused.Some? && focused.value in Live() && server.ClientOf(focused.value) == client
    }

    // A drag begins by leaving the object. Nothing checks that no drag is
    // under way: then the object is left a second time.
    method RequestStartMove(client: Id)
      requires Valid()
      modifies this`state, this`signals
      ensures Bracketed(signals) <==> old(state) == Resting || !old(Grabs(client))
      ensures Bracketed(signals) ==> Valid()
      ensures state == if old(Grabs(client)) then Moving else old(state)
      ensures signals == old(signals) + if old(Grabs(client)) then [Leave(focused.value)] else []
    {
      hide Server.Valid, Entered, Keyed, Bracketed;
      if focused.None? || focused.value !in Live() {
        return;
      }
      if server.ClientOf(focused.value) != client {
        return;
      }
      Said(signals, Leave(focused.value));
      signals := signals + [Leave(focused.value)];
      state := Moving;
    }

    // What a drag ends with: the focus is looked for anew.
    method EndMove(sight: Sight) returns (ghost nearest: Option<Hit>)
      requires Valid() && state == Moving && server.Aimed(sight)
      modifies this, ray`length, server`surfaces, server`boundedApps, server.live.Values
      ensures Valid() && state == Resting && keyboard == old(keyboard)
      ensures IsNearest(server.surfaces + server.boundedApps, old(server.Hits(sight)), nearest)
      ensures focused == (if nearest.Some? then Some(nearest.value.id) else None)
      ensures signals == old(signals)
              + (if nearest.Some? then [Enter(nearest.value.id), Motion(nearest.value.id)] else [])
    {
      hide Server.Valid, Server.Hits, Entered, Keyed, Bracketed, IsNearest, KeyboardOk, CursorOk;
      state, focused := Resting, None;
      assert Leaving(None, Live()) == [];
      nearest := CheckIntersection(sight);
    }

    method Press(pressed: bool)
      requires Valid() && (state == Moving ==> pressed)
      modifies this`keyboard, this`signals
      modifies server`surfaces, server`stamps, server`clock
      modifies server.live.Values`distance, server.live.Values`position, server.live.Values`rotation
      modifies server.live.Values`renderer, server.live.Values`activated
      ensures Valid()
      ensures var on := focused.Some? && focused.value in Live();
              && (on && pressed && focused.value in server.live ==>
                    && keyboard == focused
                    && (old(keyboard) != focused && server.live[focused.value].toplevel ==>
                          && server.surfaces != [] && server.surfaces[0] == focused.value
                          && (server.live[focused.value].role != Role.Cursor ==>
                                server.live[focused.value].distance == MIN_DISTANCE))
                    && signals == old(signals) + [Button(focused.value)]
                                  + Keying(old(keyboard), server.live.Keys, focused.value))
              && (on && !(pressed && focused.value in server.live) ==>
                    keyboard == old(keyboard) && signals == old(signals) + [Button(focused.value)])
              && (!on && pressed ==>
                    && (keyboard.None? || keyboard.value !in server.live)
                    && signals == old(signals) + KeyLeaving(old(keyboard), server.live.Keys))
              && (!on && !pressed ==> keyboard == old(keyboard) && signals == old(signals))
    {
      hide Server.Valid, Entered, Keyed, Bracketed, PointerOk, KeyboardOk, CursorOk;
      if focused.Some? && focused.value in Live() {
        SayButton();
        if pressed && focused.value in server.live {
          SetKeyboardFocusedSurface(focused.value);
        }
      } else if pressed {
        TryLeaveKeyboard();
      }
    }

    ghost method SayButton()
      requires Valid() && focused.Some?
      modifies this`signals
      ensures Valid() && signals == old(signals) + [Button(focused.value)]
    {
      hide Server.Valid, Entered, Keyed, Bracketed;
      Say(Button(focused.value));
    }

    method HandleMouseButton(pressed: bool, sight: Sight)
      requires Valid() && (state == Moving && !pressed ==> server.Aimed(sight))
      modifies this, ray`length, server, server.live.Values
      ensures Valid() && server.live == old(server.live)
      ensures old(state) == Moving && !pressed ==>
                && state == Resting && keyboard == old(keyboard) && old(signals) <= signals
                && Refocused(server.surfaces + server.boundedApps, old(server.Hits(sight)), None, Live(), focused,
                             signals[|old(signals)|..])
      ensures old(state) == Resting || pressed ==> state == old(state) && focused == old(focused)
      ensures pressed && old(focused).Some? && old(focused).value in server.live ==>
                && keyboard == old(focused)
                && (old(keyboard) != old(focused) && server.live[old(focused).value].toplevel ==>
                      server.surfaces != [] && server.surfaces[0] == old(focused).value
                      && (server.live[old(focused).value].role != Role.Cursor ==>
                            server.live[old(focused).value].distance == MIN_DISTANCE))
                && signals == old(signals) + [Button(old(focused).value)]
                              + Keying(old(keyboard), server.live.Keys, old(focused).value)
      ensures pressed && (old(focused).None? || old(focused).value !in old(Live())) ==>
                && (keyboard.None? || keyboard.value !in server.live)
                && signals == old(signals) + KeyLeaving(old(keyboard), server.live.Keys)
      ensures old(state) == Resting && !pressed ==>
                && keyboard == old(keyboard)
                && signals == old(signals)
                   + (if focused.Some? && focused.value in Live() then [Button(focused.value)] else [])
    {
      hide Server.Valid, Server.Hits, Valid, IsNearest, Bracketed;
      if state == Moving && !pressed {
        ghost var nearest := EndMove(sight);
        assert Pointing(None, Live(), 0) == [Enter(0), Motion(0)];
        return;
      }
      Press(pressed);
    }

    method HandleMouseWheel()
      requires Valid()
      modifies this`signals
      ensures Valid()
      ensures signals == old(signals) + if focused.Some? && focused.value in Live() then [Axis(focused.value)] else []
    {
      hide Server.Valid, Entered, Keyed, Bracketed;
      if focused.Some? && focused.value in Live() {
        Say(Axis(focused.value));
      }
    }

    ghost predicate Dragging()
      reads this`state, this`focused, server`live, server`liveApps
    {
      state == Moving && focused.Some? && (focused.value in server.live || focused.value in server.liveApps)
    }

    // Where the dragged object is, seen from the ray.
    ghost function Offset(): Angles
      requires Dragging()
      reads this`state, this`focused, server`live, server`liveApps, server.live.Values`polar,
          server.live.Values`azimuthal
      reads ray`angles
    {
      server.AnglesOf(focused.value).Minus(ray.angles)
    }

    // The focused object turns; nobody is told.
    method MoveFocused(polar: real, azimuthal: real)
      requires Valid() && focused.Some? && focused.value in Live()
      modifies server`liveApps, server.live.Values`polar, server.live.Values`azimuthal
      modifies server.live.Values`position, server.live.Values`rotation, server.live.Values`renderer
      ensures Valid() && Live() == old(Live())
      ensures server.AnglesOf(focused.value) == old(server.AnglesOf(focused.value)).Plus(polar, azimuthal)
    {
      hide Server.Valid, Entered, Keyed, Bracketed, Server.AnglesOf;
      server.MoveObject(focused.value, polar, azimuthal);
    }

    // Turns the ray, and tells by how much the polar angle has really changed.
    method MoveRay(polar: real, azimuthal: real) returns (diffPolar: real)
      requires Valid()
      modifies ray`angles
      ensures Valid() && ray.angles == old(ray.angles).Plus(diffPolar, azimuthal)
      ensures ray.angles.polar == Clamp(old(ray.angles).polar + polar, ray.pi / 8.0, ray.pi - ray.pi / 8.0)
    {
      hide Server.Valid, Entered, Keyed, Bracketed;
      diffPolar := ray.MoveRel(polar, azimuthal);
    }

    // At rest the focus follows the ray;
    method Rest(sight: Sight) returns (ghost nearest: Option<Hit>)
      requires Valid() && state == Resting && server.Aimed(sight)
      modifies this`focused, this`signals, this`cursor, this`cursorDistance, this`hotspot, ray`length
      modifies server`surfaces, server`boundedApps, server.live.Values
      ensures Valid() && old(signals) <= signals
      ensures Refocused(server.surfaces + server.boundedApps, old(server.Hits(sight)), old(focused), Live(), focused,
                        signals[|old(signals)|..])
      ensures focused == (if nearest.Some? then Some(nearest.value.id) else None)
      ensures nearest.Some? ==> cursorDistance == nearest.value.distance * 0.98
      ensures forall i, t :: old(server.SurfaceMet(sight, i, t)) ==> nearest.Some? && nearest.value.distance <= t
      ensures nearest.Some? && nearest.value.id in server.live ==>
                old(server.SurfaceMet(sight, nearest.value.id, nearest.value.distance))
    {
      hide Server.Valid, Server.Hits, Server.SurfaceMet, Server.Aimed, Valid, IsNearest, Pointing, Leaving;
      nearest := CheckIntersection(sight);
    }

    // a dragged object keeps its place relative to it.
    method Drag(polar: real, azimuthal: real) returns (diffPolar: real)
      requires Valid() && state == Moving
      modifies ray`angles, server`liveApps, server.live.Values`polar, server.live.Values`azimuthal
      modifies server.live.Values`position, server.live.Values`rotation, server.live.Values`renderer
      ensures Valid() && ray.angles == old(ray.angles).Plus(diffPolar, azimuthal)
      ensures ray.angles.polar == Clamp(old(ray.angles).polar + polar, ray.pi / 8.0, ray.pi - ray.pi / 8.0)
      ensures Live() == old(Live())
      ensures old(Dragging()) ==> Dragging() && Offset() == old(Offset())
    {
      hide Server.Valid, Valid, Server.AnglesOf;
      diffPolar := MoveRay(polar, azimuthal);
      if focused.Some? && focused.value in Live() {
        MoveFocused(diffPolar, azimuthal);
      }
    }

    // A live cursor goes where the ray ends.
    method FollowRay(sight: Sight)
      requires Valid()
      modifies server.live.Values`position, server.live.Values`rotation, server.live.Values`renderer
      ensures Valid() && CursorFollows(sight)
    {
      hide Valid;
      if cursor.Some? && cursor.value in server.live {
        MoveCursor(sight);
      }
    }

    method MoveRelPointing(polar: real, azimuthal: real, sight: Sight) returns (ghost nearest: Option<Hit>)
      requires Valid() && (state == Resting ==> server.Aimed(sight))
      modifies this, ray, server, server.live.Values
      ensures Valid() && state == old(state) && server.live == old(server.live) && keyboard == old(keyboard)
      ensures Live() == old(Live())
      ensures ray.angles.polar == Clamp(old(ray.angles).polar + polar, ray.pi / 8.0, ray.pi - ray.pi / 8.0)
      ensures ray.angles.azimuthal == old(ray.angles).azimuthal + azimuthal
      ensures old(state) == Resting ==>
                && old(signals) <= signals
                && Refocused(server.surfaces + server.boundedApps, old(server.Hits(sight)), old(focused), Live(),
                             focused, signals[|old(signals)|..])
                && focused == (if nearest.Some? then Some(nearest.value.id) else None)
                && (nearest.Some? ==> cursorDistance == nearest.value.distance * 0.98)
                && (forall i, t :: old(server.SurfaceMet(sight, i, t)) ==>
                      nearest.Some? && nearest.value.distance <= t)
                && (nearest.Some? && nearest.value.id in server.live ==>
                      old(server.SurfaceMet(sight, nearest.value.id, nearest.value.distance)))
      ensures old(state) == Moving ==> signals == old(signals) && focused == old(focused)
      ensures old(Dragging()) ==> Dragging() && Offset() == old(Offset())
      ensures CursorFollows(sight)
    {
      hide Server.Hits, Server.SurfaceMet, Server.Aimed, Valid, Refocused, Server.AnglesOf, CursorFollows;
      nearest := None;
      match state {
        case Resting =>
          var _ := MoveRay(polar, azimuthal);
          assert forall i, t :: server.SurfaceMet(sight, i, t) == old(server.SurfaceMet(sight, i, t));
          nearest := Rest(sight);
        case Moving =>
          var _ := Drag(polar, azimuthal);
      }
      FollowRay(sight);
    }

    // So it does over any number of motions, clamped or not.
    method MoveAlong(motions: seq<Angles>, sight: Sight)
      requires Valid() && state == Moving
      modifies this, ray, server, server.live.Values
      ensures Valid() && state == Moving && focused == old(focused) && signals == old(signals)
      ensures server.live == old(server.live)
      ensures old(Dragging()) ==> Dragging() && Offset() == old(Offset())
    {
      hide Valid, Server.Hits, Refocused, Server.AnglesOf, CursorFollows;
      for k := 0 to |motions|
        invariant Valid() && state == Moving && focused == old(focused) && signals == old(signals)
        invariant server.live == old(server.live)
        invariant old(Dragging()) ==> Dragging() && Offset() == old(Offset())
      {
        ghost var _ := MoveRelPointing(motions[k].polar, motions[k].azimuthal, sight);
      }
    }

    // Objects are named by ids that are not used again.
    ghost predicate Unknown(i: Id)
      reads this, server`live, server`liveApps, server`surfaces, server`boundedApps
    {
      && i !in Live() && i !in server.surfaces && i !in server.boundedApps
      && focused != Some(i) && keyboard != Some(i) && cursor != Some(i)
    }

    method SurfaceCreated(s: Surface)
      requires Valid() && Unknown(s.id) && s !in server.live.Values && s.Valid() && !s.activated
               && s.role == Role.Default
      modifies server`surfaces, server`live, server`stamps, server`clock
      modifies s`distance, s`position, s`rotation, s`renderer
      modifies server.live.Values`distance, server.live.Values`position, server.live.Values`rotation
      modifies server.live.Values`renderer
      ensures Valid() && server.live == old(server.live)[s.id := s]
    {
      hide Server.Valid, Entered, Keyed, Bracketed;
      server.AddSurface(s);
    }

    method AppCreated(i: Id, app: App)
      requires Valid() && Unknown(i)
      modifies server`boundedApps, server`liveApps
      ensures Valid() && server.liveApps == old(server.liveApps)[i := app]
    {
      hide Server.Valid, Entered, Keyed, Bracketed;
      server.AddBoundedApp(i, app);
    }

    // A surface gets its role while it does not have the keyboard.
    method BecomesToplevel(i: Id)
      requires Valid() && i in server.live && server.live[i].role == Role.Default && keyboard != Some(i)
      modifies server.live.Values`role, server.live.Values`toplevel
      ensures Valid() && server.live[i].toplevel
    {
      hide Server.Valid, Entered, Keyed, Bracketed;
      server.BecomesToplevel(i);
    }

    // An object dies; what it was told is void.
    method SurfaceDies(i: Id)
      requires Valid() && i in server.live
      modifies this`signals, server`live
      ensures Valid() && server.live == old(server.live) - {i}
    {
      hide Server.Valid, Entered, Keyed, Bracketed;
      SurfaceIsNoApp(i);
      Say(Gone(i));
      server.SurfaceDies(i);
    }

    method AppDies(i: Id)
      requires Valid() && i in server.liveApps
      modifies this`signals, server`liveApps
      ensures Valid() && server.liveApps == old(server.liveApps) - {i}
    {
      hide Server.Valid, Entered, Keyed, Bracketed;
      KeyedAreSurfaces(i);
      Say(Gone(i));
      server.AppDies(i);
    }

    lemma SurfaceIsNoApp(i: Id)
      requires Valid() && i in server.live
      ensures i !in server.liveApps
    {
    }

    lemma KeyedAreSurfaces(i: Id)
      requires Valid() && i in server.liveApps
      ensures i !in server.live && i !in Keyed(signals)
    {
    }
  }
}
