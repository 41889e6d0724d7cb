// What a run has asked for, told by its events alone: which objects there are,
// what their clients last bound, set or uploaded, and which commits took that
// up. Nothing here knows of pending or current state, of flags or of copies.
module Asked {
  import opened Common
  import opened Scenes
  import U = Uniforms
  import T = Textures
  import S = Samplers
  import A = VertexArrays
  import D = DrawCalls
  import TB = TextureBindings
  import Q = Techniques

  // ---- what there is ------------------------------------------------------------

  datatype Kind = Memory | Buffer | Texture | Sampler | Shader | Program | VertexArray | Technique | Unit | Object

  function KindOf(c: Creation): Kind {
    match c
    case NewBuffer(_, _, _) => Buffer
    case NewTexture(_, _) => Texture
    case NewSampler => Sampler
    case NewShader(_, _) => Shader
    case NewProgram => Program
    case NewVertexArray => VertexArray
    case NewTechnique(_) => Technique
    case NewUnit(_) => Unit
    case NewObject => Object
    case NewMemory(_) => Memory
  }

  // How many ids have been given out: the next creation is given that one.
  function Given(es: seq<Event>): nat {
    if es == [] then 0 else Given(es[..|es| - 1]) + if es[|es| - 1].Create? then 1 else 0
  }

  function MadeBy(es: seq<Event>, i: Id): Option<Creation> {
    if es == [] then None
    else
      var init, e := es[..|es| - 1], es[|es| - 1];
      if e.Create? && Given(init) == i then Some(e.creation) else MadeBy(init, i)
  }

  function UnitOf(es: seq<Event>, t: Id): Option<Id> {
    var c := MadeBy(es, t);
    if c.Some? && c.value.NewTechnique? then Some(c.value.ofUnit) else None
  }

  function ObjectOf(es: seq<Event>, u: Id): Option<Id> {
    var c := MadeBy(es, u);
    if c.Some? && c.value.NewUnit? then Some(c.value.ofObject) else None
  }

  // The object that a technique is for.
  function OwnerOf(es: seq<Event>, t: Id): Option<Id> {
    var u := UnitOf(es, t);
    if u.Some? then ObjectOf(es, u.value) else None
  }

  // Units go with their object, and techniques with either.
  predicate Ends(es: seq<Event>, e: Event, i: Id) {
    match e
    case Destroy(j) => i == j
    case DestroyOwner(j) => i == j || UnitOf(es, i) == Some(j) || ObjectOf(es, i) == Some(j)
        || OwnerOf(es, i) == Some(j)
    case _ => false
  }

  predicate Lives(es: seq<Event>, i: Id) {
    if es == [] then false
    else
      var init, e := es[..|es| - 1], es[|es| - 1];
      (e.Create? && Given(init) == i) || (Lives(init, i) && !Ends(init, e, i))
  }

  predicate Is(es: seq<Event>, k: Kind, i: Id) {
    Lives(es, i) && MadeBy(es, i).Some? && KindOf(MadeBy(es, i).value) == k
  }

  // ---- what a technique was last asked for ---------------------------------------

  // The last program, vertex array and draw call; the last binding of each
  // point; every uniform, in order.
  datatype Wish = Wish(
    program: Option<Id>, vertexArray: Option<Id>, bindings: map<nat, TB.Binding>, draw: D.Draw,
    uniforms: seq<U.Uniform>)
  {
    function With(r: Q.Request): Wish {
      match r
      case BindProgram(p) => this.(program := Some(p))
      case BindVertexArray(a) => this.(vertexArray := Some(a))
      case BindTexture(b) => this.(bindings := bindings[b.binding := b])
      case SetDraw(d) => this.(draw := d)
      case NewUniform(u) => this.(uniforms := uniforms + [u.Flagged(false)])
    }
  }

  const NO_WISH := Wish(None, None, map[], D.NoDraw, [])

  function WishOf(es: seq<Event>, t: Id): Wish {
    if es == [] then NO_WISH
    else
      var init, e := es[..|es| - 1], es[|es| - 1];
      if e.OnTechnique? && e.id == t then WishOf(init, t).With(e.techniqueRequest) else WishOf(init, t)
  }

  // The event commits the object that the technique is for.
  predicate CommitsTechnique(es: seq<Event>, e: Event, t: Id) {
    (e.CommitRequest? || e.MoveApp?) && Is(es, Technique, t) && OwnerOf(es, t) == Some(e.id)
  }

  // The draw call asked for since the last commit.
  function NewDraw(es: seq<Event>, t: Id): Option<D.Draw> {
    if es == [] then None
    else
      var init, e := es[..|es| - 1], es[|es| - 1];
      if e.OnTechnique? && e.id == t && e.techniqueRequest.SetDraw? then Some(e.techniqueRequest.draw)
      else if CommitsTechnique(init, e, t) then None
      else NewDraw(init, t)
  }

  // ---- what the other objects were last asked for ----------------------------------

  function AttributeIn(m: map<nat, A.RemoteAttribute>, i: nat): A.RemoteAttribute {
    if i in m then m[i] else A.RemoteAttribute(false, None)
  }

  // The last enability and the last pointer of each attribute.
  function AttributesOf(es: seq<Event>, a: Id): map<nat, A.RemoteAttribute> {
    if es == [] then map[]
    else
      var init, e := es[..|es| - 1], es[|es| - 1];
      var m := AttributesOf(init, a);
      if !e.OnVertexArray? || e.id != a then m
      else
        match e.arrayRequest
        case SetEnability(i, enabled) => m[i := AttributeIn(m, i).(enabled := enabled)]
        case SetPointer(i, p) => m[i := AttributeIn(m, i).(pointer := Some(p))]
  }

  // The parameter is one of OpenGL ES, and the value of its size: sixteen bytes
  // for a border colour, four for the rest.
  predicate Fits(pname: nat, size: nat) {
    || (pname == 0x1004 && size == 16)
    || (pname in {0x2800, 0x2801, 0x2802, 0x2803, 0x8072, 0x813A, 0x813B, 0x884C, 0x884D} && size == 4)
  }

  // The last value of each parameter, of those that were no error.
  function ParamsOf(es: seq<Event>, i: Id): map<nat, S.RemoteParam> {
    if es == [] then map[]
    else
      var init, e := es[..|es| - 1], es[|es| - 1];
      if e.OnSampler? && e.id == i && Fits(e.pname, |e.value|)
      then ParamsOf(init, i)[e.pname := S.RemoteParam(e.paramType, e.value)]
      else ParamsOf(init, i)
  }

  // What is in a memory, while there is one.
  function BytesOf(es: seq<Event>, m: Id): Option<Bytes> {
    if es == [] then None
    else
      var init, e := es[..|es| - 1], es[|es| - 1];
      if e.Create? && e.creation.NewMemory? && Given(init) == m then Some(e.creation.bytes)
      else if e.WriteMemory? && e.id == m then Some(e.bytes)
      else if e.Destroy? && e.id == m then None
      else BytesOf(init, m)
  }

  // ---- which commits reach what ------------------------------------------------------

  datatype Target = OfTechnique(id: Id) | OfArray(id: Id) | OfTexture(id: Id) | OfSampler(id: Id) | OfBuffer(id: Id)

  // The technique was asked to bind these two, which both live.
  ghost predicate Binds(es: seq<Event>, t: Id, b: TB.Binding) {
    && b.binding in WishOf(es, t).bindings && WishOf(es, t).bindings[b.binding] == b
    && Is(es, Texture, b.texture) && Is(es, Sampler, b.sampler)
  }

  // The live array that the technique was asked for points there.
  ghost predicate PointsTo(es: seq<Event>, t: Id, b: Id) {
    var a := WishOf(es, t).vertexArray;
    && a.Some? && Is(es, VertexArray, a.value)
    && exists i :: i in AttributesOf(es, a.value) && Points(AttributesOf(es, a.value)[i], b)
  }

  predicate Points(r: A.RemoteAttribute, b: Id) {
    r.pointer.Some? && r.pointer.value.buffer == b
  }

  // A commit of the technique is passed on to the target: an index buffer only
  // together with a new draw call.
  ghost predicate Passes(es: seq<Event>, t: Id, x: Target) {
    match x
    case OfTechnique(i) => t == i
    case OfArray(i) => WishOf(es, t).vertexArray == Some(i)
    case OfTexture(i) => exists b :: Binds(es, t, b) && b.texture == i
    case OfSampler(i) => exists b :: Binds(es, t, b) && b.sampler == i
    case OfBuffer(i) =>
      || PointsTo(es, t, i)
      || (NewDraw(es, t).Some? && NewDraw(es, t).value.Elements? && NewDraw(es, t).value.buffer == i)
  }

  ghost predicate Reaches(es: seq<Event>, e: Event, x: Target) {
    exists t :: CommitsTechnique(es, e, t) && Passes(es, t, x)
  }

  // The events before the last commit that reached the target.
  ghost function UpTo(es: seq<Event>, x: Target): seq<Event> {
    if es == [] then []
    else
      var init, e := es[..|es| - 1], es[|es| - 1];
      if Reaches(init, e, x) then init else UpTo(init, x)
  }

  // ---- what was taken from memory ------------------------------------------------------

  datatype DataRequest = DataRequest(target: nat, usage: nat, memory: Id)
  datatype Data = Data(target: nat, usage: nat, bytes: Bytes)

  // The last data request, unless a commit has taken it.
  ghost function Linked(es: seq<Event>, b: Id): Option<DataRequest>
    decreases |es|, 0
  {
    if es == [] then None
    else
      var init, e := es[..|es| - 1], es[|es| - 1];
      if e.OnBuffer? && e.id == b then Some(DataRequest(e.target, e.usage, e.data))
      else if TakesData(init, e, b) then None
      else Linked(init, b)
  }

  // The commit reaches the buffer and finds a request linked whose memory is
  // still there.
  ghost predicate TakesData(es: seq<Event>, e: Event, b: Id)
    decreases |es|, 1
  {
    Reaches(es, e, OfBuffer(b)) && Linked(es, b).Some? && BytesOf(es, Linked(es, b).value.memory).Some?
  }

  // What the last such commit took, with the bytes of that time.
  ghost function Taken(es: seq<Event>, b: Id): Option<Data> {
    if es == [] then None
    else
      var init, e := es[..|es| - 1], es[|es| - 1];
      if TakesData(init, e, b) then
        var r := Linked(init, b).value;
        Some(Data(r.target, r.usage, BytesOf(init, r.memory).value))
      else Taken(init, b)
  }

  datatype ImageRequest = ImageRequest(image: T.Image2d, memory: Id)

  ghost function LinkedImage(es: seq<Event>, x: Id): Option<ImageRequest>
    decreases |es|, 0
  {
    if es == [] then None
    else
      var init, e := es[..|es| - 1], es[|es| - 1];
      if e.OnTexture? && e.id == x && e.textureRequest.NewImage2d? then
        Some(ImageRequest(e.textureRequest.image, e.textureRequest.data))
      else if TakesImage(init, e, x) then None
      else LinkedImage(init, x)
  }

  ghost predicate TakesImage(es: seq<Event>, e: Event, x: Id)
    decreases |es|, 1
  {
    && Reaches(es, e, OfTexture(x)) && LinkedImage(es, x).Some?
    && BytesOf(es, LinkedImage(es, x).value.memory).Some?
  }

  ghost function TakenImage(es: seq<Event>, x: Id): Option<T.Upload> {
    if es == [] then None
    else
      var init, e := es[..|es| - 1], es[|es| - 1];
      if TakesImage(init, e, x) then
        Some(T.Upload(LinkedImage(init, x).value.image, BytesOf(init, LinkedImage(init, x).value.memory)))
      else TakenImage(init, x)
  }

  // The last mipmap request, unless a commit has taken it; zero asks for none.
  ghost function WantedMipmap(es: seq<Event>, x: Id): nat {
    if es == [] then 0
    else
      var init, e := es[..|es| - 1], es[|es| - 1];
      if e.OnTexture? && e.id == x && e.textureRequest.GenerateMipmap? then e.textureRequest.target
      else if Reaches(init, e, OfTexture(x)) then 0
      else WantedMipmap(init, x)
  }

  ghost function TakenMipmap(es: seq<Event>, x: Id): Option<nat> {
    if es == [] then None
    else
      var init, e := es[..|es| - 1], es[|es| - 1];
      if Reaches(init, e, OfTexture(x)) && WantedMipmap(init, x) != 0 then Some(WantedMipmap(init, x))
      else TakenMipmap(init, x)
  }

  // ---- where an app was put ---------------------------------------------------------------

  // The pose of its attachment, with all the motions since.
  function PoseOf(es: seq<Event>, v: Id): Option<Pose> {
    if es == [] then None
    else
      var init, e := es[..|es| - 1], es[|es| - 1];
      if e.AttachApp? && e.id == v then Some(e.pose)
      else if e.MoveApp? && e.id == v && PoseOf(init, v).Some? then
        Some(Pose(PoseOf(init, v).value.polar + e.polar, PoseOf(init, v).value.azimuthal + e.azimuthal))
      else PoseOf(init, v)
  }

  // ---- what is to be on show ------------------------------------------------------------------

  predicate Connected(es: seq<Event>) {
    es != [] && (es[|es| - 1].SessionEstablished? || (!es[|es| - 1].SessionLost? && Connected(es[..|es| - 1])))
  }

  // What the technique was asked for before its last commit.
  ghost function Settled(es: seq<Event>, t: Id): Wish {
    WishOf(UpTo(es, OfTechnique(t)), t)
  }

  ghost function SettledAttributes(es: seq<Event>, a: Id): map<nat, A.RemoteAttribute> {
    AttributesOf(UpTo(es, OfArray(a)), a)
  }

  ghost predicate ShowsBinding(es: seq<Event>, t: Id, b: TB.Binding) {
    && b.binding in Settled(es, t).bindings && Settled(es, t).bindings[b.binding] == b
    && Is(es, Texture, b.texture) && Is(es, Sampler, b.sampler)
  }

  ghost predicate ShowsArray(es: seq<Event>, t: Id, a: Id) {
    Settled(es, t).vertexArray == Some(a) && Is(es, VertexArray, a)
  }

  // The technique draws from the buffer, for indices or for an attribute.
  ghost predicate ShowsData(es: seq<Event>, t: Id, b: Id) {
    && Is(es, Buffer, b)
    && ((Settled(es, t).draw.Elements? && Settled(es, t).draw.buffer == b)
        || exists a, i :: ShowsArray(es, t, a) && i in SettledAttributes(es, a)
                            && Points(SettledAttributes(es, a)[i], b))
  }
}
