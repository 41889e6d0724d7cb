// The whole replicated scene: GL objects, techniques, rendering units and
// virtual objects, each with its copy on the renderer, and every event that
// can happen to them. A cascade is described at once, by what it reaches.
module Scenes {
  import opened Common
  import B = Buffers
  import T = Textures
  import S = Samplers
  import H = Shaders
  import P = Programs
  import A = VertexArrays
  import D = DrawCalls
  import TB = TextureBindings
  import Q = Techniques

  // Where a bounded app stands; its transform is a function of this.
  datatype Pose = Pose(polar: real, azimuthal: real)

  datatype RenderingUnit = RenderingUnit(owner: Id, committed: bool, proxy: bool)

  // The renderer's copy of a virtual object remembers where it was moved to.
  datatype VirtualObject = VirtualObject(committed: bool, app: Option<Pose>, proxy: Option<Pose>)

  // Everything below the rendering units, by id.
  datatype Gl = Gl(
    shm: map<Id, Bytes>,
    buffers: map<Id, B.Buffer>,
    textures: map<Id, T.Texture>,
    samplers: map<Id, S.Sampler>,
    shaders: map<Id, H.Shader>,
    programs: map<Id, P.Program>,
    arrays: map<Id, A.VertexArray>,
    techniques: map<Id, Q.Technique>)
  {
    ghost function Live(): Q.Live {
      Q.Live(buffers.Keys, textures.Keys, samplers.Keys, programs.Keys, arrays.Keys)
    }
  }

  // Ids are drawn from `next` and never reused.
  datatype Scene = Scene(
    session: bool, next: Id, gl: Gl, units: map<Id, RenderingUnit>, objects: map<Id, VirtualObject>)

  const EMPTY := Scene(false, 0, Gl(map[], map[], map[], map[], map[], map[], map[], map[]), map[], map[])

  // ---- what a cascade reaches -------------------------------------------------

  datatype Reach = Reach(
    buffers: set<Id>, textures: set<Id>, samplers: set<Id>, shaders: set<Id>, programs: set<Id>, arrays: set<Id>)

  // From one technique's commit. Vertex arrays pass the commit on to the
  // buffers of their pending attributes, draw calls only when they change.
  ghost function CommitReach(g: Gl, t: Q.Technique): Reach {
    var c := t.CommittedCurrent(g.Live());
    Reach(
      A.PendingBuffers(g.arrays, c.vertexArray) + D.CommitBuffers(t.pending.draw),
      TB.TexturesOf(c.textures.list), TB.SamplersOf(c.textures.list), {}, Opt(c.program), Opt(c.vertexArray))
  }

  // From one technique's sync.
  ghost function SyncReach(g: Gl, t: Q.Technique): Reach {
    var c := t.current;
    var list := TB.KeepLive(c.textures.list, g.textures.Keys, g.samplers.Keys);
    Reach(
      A.CurrentBuffers(g.arrays, c.vertexArray) + c.draw.data.BufferSet(),
      TB.TexturesOf(list), TB.SamplersOf(list),
      P.CurrentShaders(g.programs, c.program, g.shaders.Keys),
      Opt(c.program), Opt(c.vertexArray))
  }

  // What a family of techniques reaches together.
  ghost function Together(m: map<Id, Reach>): Reach {
    Reach(set t, i | t in m && i in m[t].buffers :: i, set t, i | t in m && i in m[t].textures :: i,
          set t, i | t in m && i in m[t].samplers :: i, set t, i | t in m && i in m[t].shaders :: i,
          set t, i | t in m && i in m[t].programs :: i, set t, i | t in m && i in m[t].arrays :: i)
  }

  ghost function CommitReaches(g: Gl, ts: set<Id>): map<Id, Reach> {
    map t | t in ts && t in g.techniques :: CommitReach(g, g.techniques[t])
  }

  ghost function CommitReachAll(g: Gl, ts: set<Id>): Reach {
    Together(CommitReaches(g, ts))
  }

  ghost function SyncReaches(g: Gl, ts: set<Id>): map<Id, Reach> {
    map t | t in ts && t in g.techniques :: SyncReach(g, g.techniques[t])
  }

  ghost function SyncReachAll(g: Gl, ts: set<Id>): Reach {
    Together(SyncReaches(g, ts))
  }

  // ---- cascades -----------------------------------------------------------------

  ghost function CommitLeaves(g: Gl, r: Reach): Gl {
    g.(buffers := B.CommitSome(g.buffers, r.buffers, g.shm),
       textures := T.CommitSome(g.textures, r.textures, g.shm),
       samplers := S.CommitSome(g.samplers, r.samplers),
       programs := P.CommitSome(g.programs, r.programs),
       arrays := A.CommitSome(g.arrays, r.arrays))
  }

  // Each technique of `ts` commits, and everything they reach commits once.
  ghost function CommitTechniques(g: Gl, ts: set<Id>): Gl {
    CommitLeaves(g, CommitReachAll(g, ts)).(
      techniques := map t | t in g.techniques ::
        if t in ts then g.techniques[t].Commit(g.Live()) else g.techniques[t])
  }

  ghost function SyncLeaves(g: Gl, r: Reach, force: bool): Gl {
    g.(buffers := B.SyncSome(g.buffers, r.buffers, force),
       textures := T.SyncSome(g.textures, r.textures, force),
       samplers := S.SyncSome(g.samplers, r.samplers, force),
       shaders := H.SyncSome(g.shaders, r.shaders),
       programs := P.SyncSome(g.programs, r.programs, force, g.shaders.Keys),
       arrays := A.SyncSome(g.arrays, r.arrays, force, g.buffers.Keys))
  }

  // Each technique of `ts` is sent, and everything they reach is sent once.
  ghost function SyncTechniques(g: Gl, ts: set<Id>, force: bool): Gl {
    SyncLeaves(g, SyncReachAll(g, ts), force).(
      techniques := map t | t in g.techniques ::
        if t in ts then g.techniques[t].Sync(force, g.Live()) else g.techniques[t])
  }

  // The techniques made for units of the objects `vs`.
  ghost function TechniquesOf(s: Scene, vs: set<Id>): set<Id> {
    set t | t in s.gl.techniques && s.gl.techniques[t].unit in s.units && s.units[s.gl.techniques[t].unit].owner in vs
  }

  ghost function CommittedOf(s: Scene, vs: set<Id>): set<Id> {
    set t | t in TechniquesOf(s, vs) && s.gl.techniques[t].committed
  }

  ghost function CommitUnits(units: map<Id, RenderingUnit>, v: Id): map<Id, RenderingUnit> {
    map u | u in units :: if units[u].owner == v then units[u].(committed := true) else units[u]
  }

  ghost function SyncUnits(units: map<Id, RenderingUnit>, vs: set<Id>): map<Id, RenderingUnit> {
    map u | u in units :: if units[u].owner in vs && units[u].committed then units[u].(proxy := true) else units[u]
  }

  ghost function SyncOwners(objects: map<Id, VirtualObject>, vs: set<Id>): map<Id, VirtualObject> {
    map v | v in objects :: if v in vs then objects[v].(proxy := objects[v].app) else objects[v]
  }

  // A commit of a virtual object reaches every unit and technique made for it.
  ghost function CommitObject(s: Scene, v: Id): Scene
    requires v in s.objects
  {
    s.(gl := CommitTechniques(s.gl, TechniquesOf(s, {v})),
       units := CommitUnits(s.units, v),
       objects := s.objects[v := s.objects[v].(committed := true)])
  }

  ghost function WithApp(s: Scene, vs: set<Id>): set<Id> {
    set v | v in vs && v in s.objects && s.objects[v].app.Some?
  }

  // A sync reaches the committed units and techniques of objects with an app.
  ghost function SyncObjects(s: Scene, vs: set<Id>, force: bool): Scene {
    var shown := WithApp(s, vs);
    s.(gl := SyncTechniques(s.gl, CommittedOf(s, shown), force),
       units := SyncUnits(s.units, shown),
       objects := SyncOwners(s.objects, shown))
  }

  // The commit request: a plain sync follows while there is a session.
  ghost function Commit(s: Scene, v: Id): Scene
    requires v in s.objects
  {
    var s1 := CommitObject(s, v);
    if s1.session then SyncObjects(s1, {v}, false) else s1
  }

  ghost function CommittedObjects(s: Scene): set<Id> {
    set v | v in s.objects && s.objects[v].committed
  }

  // A new session: every committed object is sent by force.
  ghost function SessionUp(s: Scene): Scene {
    if s.session then s else SyncObjects(s.(session := true), CommittedObjects(s), true)
  }

  ghost function DropCopies(g: Gl): Gl {
    g.(buffers := B.Dropped(g.buffers), textures := T.Dropped(g.textures), samplers := S.Dropped(g.samplers),
       shaders := H.Dropped(g.shaders), programs := P.Dropped(g.programs), arrays := A.Dropped(g.arrays),
       techniques := map i | i in g.techniques :: g.techniques[i].(proxy := None))
  }

  // A lost session: every copy is gone.
  ghost function SessionDown(s: Scene): Scene {
    s.(session := false,
       gl := DropCopies(s.gl),
       units := map i | i in s.units :: s.units[i].(proxy := false),
       objects := map i | i in s.objects :: s.objects[i].(proxy := None))
  }

  // Forget every copy and send the current state again.
  ghost function Reconnect(s: Scene): Scene {
    SessionUp(SessionDown(s))
  }

  // ---- events ---------------------------------------------------------------------

  datatype Creation =
    | NewBuffer(junk: B.BufferCurrent, target: nat, usage: nat)
    | NewTexture(junkImage: T.Image2d, junkMipmap: nat)
    | NewSampler
    | NewShader(kind: nat, source: Bytes)
    | NewProgram
    | NewVertexArray
    | NewTechnique(ofUnit: Id)
    | NewUnit(ofObject: Id)
    | NewObject
    | NewMemory(bytes: Bytes)

  datatype Event =
    | Create(creation: Creation)
    | Destroy(id: Id)
    | DestroyOwner(id: Id)
    | WriteMemory(id: Id, bytes: Bytes)
    | OnBuffer(id: Id, target: nat, usage: nat, data: Id)
    | OnTexture(id: Id, textureRequest: T.Request)
    | OnSampler(id: Id, paramType: S.ParamType, pname: nat, value: Bytes)
    | OnProgram(id: Id, programRequest: P.Request)
    | OnVertexArray(id: Id, arrayRequest: A.Request)
    | OnTechnique(id: Id, techniqueRequest: Q.Request)
    | AttachApp(id: Id, pose: Pose)
    | CommitRequest(id: Id)
    | MoveApp(id: Id, polar: real, azimuthal: real)
    | SessionEstablished
    | SessionLost

  // What goes with the unit or object `i`: the units below it.
  ghost function UnitsUnder(s: Scene, i: Id): set<Id> {
    set u | u in s.units && (u == i || s.units[u].owner == i)
  }

  // Units and techniques are deleted with their owner once committed; before
  // that the owner does not know them.
  ghost predicate AllCommittedUnder(s: Scene, i: Id) {
    && (forall u :: u in s.units && s.units[u].owner == i ==> s.units[u].committed)
    && (forall t :: t in s.gl.techniques && s.gl.techniques[t].unit in UnitsUnder(s, i) ==>
       s.gl.techniques[t].committed)
  }

  // The app is there, and no uniform gives way to a vector of unknown type.
  ghost predicate CommitAllowed(s: Scene, v: Id) {
    && v in s.objects && s.objects[v].app.Some?
    && forall t :: t in TechniquesOf(s, {v}) ==> s.gl.techniques[t].DisplacesNone()
  }

  // A client names live resources only; the other guards keep a run to the
  // clients and events that the protocol and the source provide for.
  ghost predicate Allowed(s: Scene, e: Event) {
    && NamesGl(s.gl, e)
    && match e
       case Create(c) => CreationAllowed(s, c)
       case Destroy(i) => i !in s.objects && i !in s.units
       case DestroyOwner(i) => (i in s.objects || i in s.units) && AllCommittedUnder(s, i)
       case AttachApp(v, _) => v in s.objects && s.objects[v].app.None?
       case CommitRequest(v) => CommitAllowed(s, v)
       case MoveApp(v, _, _) => CommitAllowed(s, v)
       case _ => true
  }

  // One technique per unit: a second is a protocol error.
  ghost predicate CreationAllowed(s: Scene, c: Creation) {
    match c
    case NewBuffer(junk, _, _) => junk.data.None?
    case NewTechnique(u) => u in s.units && forall t :: t in s.gl.techniques ==> s.gl.techniques[t].unit != u
    case NewUnit(v) => v in s.objects
    case _ => true
  }

  ghost function Made(g: Gl, i: Id, c: Creation): Gl {
    match c
    case NewBuffer(junk, target, usage) =>
      g.(buffers := g.buffers[i := B.Buffer(B.BufferPending(target, usage, None), junk, None)])
    case NewTexture(junk, mipmap) => g.(textures := g.textures[i := T.NewTexture(junk, mipmap)])
    case NewSampler => g.(samplers := g.samplers[i := S.Sampler(map[], map[], None)])
    case NewShader(kind, source) => g.(shaders := g.shaders[i := H.Shader(kind, source, false)])
    case NewProgram => g.(programs := g.programs[i := P.NEW_PROGRAM])
    case NewVertexArray => g.(arrays := g.arrays[i := A.NEW_ARRAY])
    case NewTechnique(u) => g.(techniques := g.techniques[i := Q.NewTechnique(u)])
    case NewMemory(bytes) => g.(shm := g.shm[i := bytes])
    case _ => g
  }

  ghost function Without(g: Gl, i: Id): Gl {
    Gl(g.shm - {i}, g.buffers - {i}, g.textures - {i}, g.samplers - {i}, g.shaders - {i}, g.programs - {i},
       g.arrays - {i}, g.techniques - {i})
  }

  ghost predicate NamesGl(g: Gl, e: Event) {
    match e
    case WriteMemory(m, _) => m in g.shm
    case OnBuffer(b, _, _, m) => b in g.buffers && m in g.shm
    case OnTexture(t, r) => t in g.textures && (r.NewImage2d? ==> r.data in g.shm)
    case OnSampler(i, _, _, _) => i in g.samplers
    case OnProgram(p, r) => p in g.programs && (r.AttachShader? ==> r.shader in g.shaders)
    case OnVertexArray(a, r) => a in g.arrays && (r.SetPointer? ==> r.pointer.buffer in g.buffers)
    case OnTechnique(t, r) => t in g.techniques && r.Allowed(g.Live())
    case _ => true
  }

  ghost function Requested(g: Gl, e: Event): Gl
    requires NamesGl(g, e)
  {
    match e
    case Destroy(i) => Without(g, i)
    case WriteMemory(m, bytes) => g.(shm := g.shm[m := bytes])
    case OnBuffer(i, target, usage, m) => g.(buffers := g.buffers[i := g.buffers[i].Requested(target, usage, m)])
    case OnTexture(i, r) => g.(textures := g.textures[i := g.textures[i].Requested(r)])
    case OnSampler(i, paramType, pname, value) =>
      g.(samplers := g.samplers[i := g.samplers[i].SetParameter(paramType, pname, value)])
    case OnProgram(i, r) => g.(programs := g.programs[i := g.programs[i].Requested(r)])
    case OnVertexArray(i, r) => g.(arrays := g.arrays[i := g.arrays[i].Requested(r)])
    case OnTechnique(i, r) => g.(techniques := g.techniques[i := g.techniques[i].Requested(r)])
    case _ => g
  }

  // Moving an app commits its object from the server's side.
  ghost function Moved(s: Scene, v: Id, polar: real, azimuthal: real): Scene
    requires v in s.objects && s.objects[v].app.Some?
  {
    var pose := s.objects[v].app.value;
    s.(objects := s.objects[v := s.objects[v].(app := Some(Pose(pose.polar + polar, pose.azimuthal + azimuthal)))])
  }

  // A unit or an object dies with everything below it.
  ghost function Uprooted(s: Scene, i: Id): Scene {
    var us := UnitsUnder(s, i);
    s.(gl := s.gl.(techniques := map t | t in s.gl.techniques && s.gl.techniques[t].unit !in us :: s.gl.techniques[t]),
       units := s.units - us,
       objects := s.objects - {i})
  }

  // Commits, the coming and going of sessions, and the death of an owner
  // cascade; the rest is quiet.
  predicate Cascades(e: Event) {
    e.CommitRequest? || e.MoveApp? || e.SessionEstablished? || e.SessionLost? || e.DestroyOwner?
  }

  function NextAfter(n: Id, e: Event): Id {
    if e.Create? then n + 1 else n
  }

  ghost function GlAfter(g: Gl, n: Id, e: Event): Gl
    requires NamesGl(g, e)
  {
    if e.Create? then Made(g, n, e.creation) else Requested(g, e)
  }

  ghost function UnitsAfter(units: map<Id, RenderingUnit>, n: Id, e: Event): map<Id, RenderingUnit> {
    if e.Create? && e.creation.NewUnit? then units[n := RenderingUnit(e.creation.ofObject, false, false)] else units
  }

  ghost function ObjectsAfter(objects: map<Id, VirtualObject>, n: Id, e: Event): map<Id, VirtualObject>
    requires e.AttachApp? ==> e.id in objects
  {
    if e.Create? && e.creation.NewObject? then objects[n := VirtualObject(false, None, None)]
    else if e.AttachApp? then objects[e.id := objects[e.id].(app := Some(e.pose))]
    else objects
  }

  ghost function QuietStep(s: Scene, e: Event): Scene
    requires Allowed(s, e) && !Cascades(e)
  {
    Scene(s.session, NextAfter(s.next, e), GlAfter(s.gl, s.next, e), UnitsAfter(s.units, s.next, e),
          ObjectsAfter(s.objects, s.next, e))
  }

  ghost function Step(s: Scene, e: Event): Scene
    requires Allowed(s, e)
  {
    match e
    case CommitRequest(v) => Commit(s, v)
    case MoveApp(v, polar, azimuthal) => Commit(Moved(s, v, polar, azimuthal), v)
    case SessionEstablished => SessionUp(s)
    case SessionLost => SessionDown(s)
    case DestroyOwner(i) => Uprooted(s, i)
    case _ => QuietStep(s, e)
  }

  // ---- runs -------------------------------------------------------------------------

  ghost predicate Possible(es: seq<Event>)
    decreases |es|, 0
  {
    es != [] ==> Possible(es[..|es| - 1]) && Allowed(Run(es[..|es| - 1]), es[|es| - 1])
  }

  ghost function Run(es: seq<Event>): Scene
    requires Possible(es)
    decreases |es|, 1
  {
    if es == [] then EMPTY else Step(Run(es[..|es| - 1]), es[|es| - 1])
  }
}
