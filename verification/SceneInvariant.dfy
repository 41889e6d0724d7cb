// What every step of the replicated scene keeps.
module SceneInvariant {
  import opened Common
  import opened Scenes
  import U = Uniforms
  import B = Buffers
  import T = Textures
  import S = Samplers
  import H = Shaders
  import P = Programs
  import A = VertexArrays
  import TB = TextureBindings
  import Q = Techniques

  // Units belong to objects and techniques to units, one each; commit flags
  // rise from the root down.
  ghost predicate Tree(
    techniques: map<Id, Q.Technique>, units: map<Id, RenderingUnit>, objects: map<Id, VirtualObject>)
  {
    && (forall u :: u in units ==> units[u].owner in objects)
    && (forall t :: t in techniques ==> techniques[t].unit in units)
    && (forall t, t' :: t in techniques && t' in techniques && techniques[t].unit == techniques[t'].unit ==> t == t')
    && (forall u :: u in units && units[u].committed ==> objects[units[u].owner].committed)
    && (forall t :: t in techniques && techniques[t].committed ==> units[techniques[t].unit].committed)
    && (forall v :: v in objects && objects[v].committed ==> objects[v].app.Some?)
  }

  ghost predicate Structured(s: Scene) {
    Tree(s.gl.techniques, s.units, s.objects)
  }

  predicate BoundBelow(c: Q.Bound, n: Id) {
    && (c.program.Some? ==> c.program.value < n) && (c.vertexArray.Some? ==> c.vertexArray.value < n)
    && (forall b :: b in c.textures.list ==> b.texture < n && b.sampler < n)
    && (c.draw.data.Elements? ==> c.draw.data.buffer < n)
  }

  ghost predicate AttributesBelow(a: A.Attributes, n: Id) {
    forall i :: i in a && a[i].buffer.Some? ==> a[i].buffer.value < n
  }

  ghost predicate Below(ids: set<Id>, n: Id) {
    forall i :: i in ids ==> i < n
  }

  ghost predicate TechniquesBelow(techniques: map<Id, Q.Technique>, n: Id) {
    forall t :: t in techniques ==>
        t < n && BoundBelow(techniques[t].pending, n) && BoundBelow(techniques[t].current, n)
  }

  ghost predicate ArraysBelow(arrays: map<Id, A.VertexArray>, n: Id) {
    forall a :: a in arrays ==> a < n && AttributesBelow(arrays[a].pending, n) && AttributesBelow(arrays[a].current, n)
  }

  ghost predicate ProgramsBelow(programs: map<Id, P.Program>, n: Id) {
    forall p :: p in programs ==>
      p < n && Below(P.Elements(programs[p].pending.shaders), n) && Below(P.Elements(programs[p].current.shaders), n)
  }

  // Every id in use was given out before: a dead id never comes back.
  ghost predicate KnownGl(g: Gl, n: Id) {
    && Below(g.shm.Keys, n) && Below(g.buffers.Keys, n) && Below(g.textures.Keys, n)
    && Below(g.samplers.Keys, n) && Below(g.shaders.Keys, n)
    && ProgramsBelow(g.programs, n) && ArraysBelow(g.arrays, n) && TechniquesBelow(g.techniques, n)
  }

  ghost predicate Known(s: Scene) {
    KnownGl(s.gl, s.next) && Below(s.units.Keys, s.next) && Below(s.objects.Keys, s.next)
  }

  ghost predicate SoundBuffers(m: map<Id, B.Buffer>) {
    forall i :: i in m ==> m[i].FlagSound()
  }

  ghost predicate SoundTextures(m: map<Id, T.Texture>) {
    forall i :: i in m ==> m[i].FlagSound()
  }

  ghost predicate SoundSamplers(m: map<Id, S.Sampler>) {
    forall i :: i in m ==> m[i].FlagSound()
  }

  ghost predicate SoundArrays(m: map<Id, A.VertexArray>) {
    forall i :: i in m ==> m[i].FlagSound()
  }

  ghost predicate SoundTechniques(m: map<Id, Q.Technique>) {
    forall i :: i in m ==> m[i].WellFormed()
  }

  // Every change flag is sound.
  ghost predicate Sound(g: Gl) {
    && SoundBuffers(g.buffers) && SoundTextures(g.textures) && SoundSamplers(g.samplers)
    && SoundArrays(g.arrays) && SoundTechniques(g.techniques)
  }

  // A copy exists on the renderer only below an existing copy of its owner.
  ghost predicate Nested(
    techniques: map<Id, Q.Technique>, units: map<Id, RenderingUnit>, objects: map<Id, VirtualObject>)
    requires Tree(techniques, units, objects)
  {
    && (forall t :: t in techniques && techniques[t].proxy.Some? ==> units[techniques[t].unit].proxy)
    && (forall u :: u in units && units[u].proxy ==> objects[units[u].owner].proxy.Some?)
  }

  // There is no copy without a session.
  ghost predicate Hierarchy(s: Scene)
    requires Structured(s)
  {
    Nested(s.gl.techniques, s.units, s.objects) && (!s.session ==> NoCopies(s.gl) && NoOwnerCopies(s.units, s.objects))
  }

  ghost predicate NoCopies(g: Gl) {
    && (forall i :: i in g.buffers ==> g.buffers[i].proxy.None?)
    && (forall i :: i in g.textures ==> g.textures[i].proxy.None?)
    && (forall i :: i in g.samplers ==> g.samplers[i].proxy.None?)
    && (forall i :: i in g.shaders ==> !g.shaders[i].proxy)
    && (forall i :: i in g.programs ==> g.programs[i].proxy.None?)
    && (forall i :: i in g.arrays ==> g.arrays[i].proxy.None?)
    && (forall i :: i in g.techniques ==> g.techniques[i].proxy.None?)
  }

  ghost predicate NoOwnerCopies(units: map<Id, RenderingUnit>, objects: map<Id, VirtualObject>) {
    (forall i :: i in units ==> !units[i].proxy) && (forall i :: i in objects ==> objects[i].proxy.None?)
  }

  // Everything a technique shows is on the renderer with no flag left up.
  ghost predicate Settled(g: Gl, c: Q.Bound) {
    && ArraySettled(g, c.vertexArray)
    && BuffersSettled(g, c.draw.data.BufferSet())
    && ProgramSettled(g, c.program)
    && TexturesSettled(g, c.textures.list)
  }

  ghost predicate BuffersSettled(g: Gl, ids: set<Id>) {
    forall i :: i in ids && i in g.buffers ==> g.buffers[i].Clean()
  }

  ghost predicate ArraySettled(g: Gl, a: Option<Id>) {
    a.Some? && a.value in g.arrays ==>
      g.arrays[a.value].Exact(g.buffers.Keys) && BuffersSettled(g, A.BuffersOf(g.arrays[a.value].current))
  }

  ghost predicate ProgramSettled(g: Gl, p: Option<Id>) {
    p.Some? && p.value in g.programs ==>
      && g.programs[p.value].Clean()
      && forall h :: h in g.programs[p.value].current.shaders && h in g.shaders ==> g.shaders[h].proxy
  }

  ghost predicate TexturesSettled(g: Gl, list: seq<TB.Binding>) {
    forall b :: b in list && b.texture in g.textures && b.sampler in g.samplers ==>
      g.textures[b.texture].Clean() && g.samplers[b.sampler].Exact()
  }

  ghost predicate ShownGl(g: Gl) {
    && (forall t :: t in g.techniques ==> Q.Mirrored(g.techniques[t].Copy(), g.techniques[t].current, g.Live()))
    && (forall t :: t in g.techniques && g.techniques[t].committed ==>
          g.techniques[t].proxy.Some? && Settled(g, g.techniques[t].current))
  }

  ghost predicate ShownOwners(units: map<Id, RenderingUnit>, objects: map<Id, VirtualObject>) {
    && (forall u :: u in units && units[u].committed ==> units[u].proxy)
    && (forall v :: v in objects && objects[v].committed ==> objects[v].proxy == objects[v].app)
  }

  // While there is a session the renderer mirrors what has been committed.
  ghost predicate Shown(s: Scene) {
    s.session ==> ShownGl(s.gl) && ShownOwners(s.units, s.objects)
  }

  ghost predicate Inv(s: Scene) {
    Structured(s) && Known(s) && Sound(s.gl) && Hierarchy(s) && Shown(s)
  }

  // ---- quiet steps: requests, creations and deaths ---------------------------------

  // Nothing committed or shown changes; objects may die, and those with new
  // ids, from `n` on, are blank.
  ghost predicate QuietBuffers(m: map<Id, B.Buffer>, m': map<Id, B.Buffer>, n: Id) {
    m' == m || forall i :: i in m' ==>
      if i < n then i in m && m'[i] == m[i].(pending := m'[i].pending) else m'[i].proxy.None?
  }

  ghost predicate QuietTextures(m: map<Id, T.Texture>, m': map<Id, T.Texture>, n: Id) {
    m' == m || forall i :: i in m' ==>
      if i < n then i in m && m'[i] == m[i].(pending := m'[i].pending) else m'[i].proxy.None?
  }

  ghost predicate QuietSamplers(m: map<Id, S.Sampler>, m': map<Id, S.Sampler>, n: Id) {
    m' == m || forall i :: i in m' ==>
      if i < n then i in m && m'[i] == m[i].(pending := m'[i].pending) else m'[i].proxy.None?
  }

  ghost predicate QuietShaders(m: map<Id, H.Shader>, m': map<Id, H.Shader>, n: Id) {
    m' == m || forall i :: i in m' ==>
      if i < n then i in m && m'[i] == m[i] else !m'[i].proxy
  }

  ghost predicate QuietPrograms(m: map<Id, P.Program>, m': map<Id, P.Program>, n: Id) {
    m' == m || forall i :: i in m' ==>
      if i < n then i in m && m'[i] == m[i].(pending := m'[i].pending) else m'[i].proxy.None?
  }

  ghost predicate QuietArrays(m: map<Id, A.VertexArray>, m': map<Id, A.VertexArray>, n: Id) {
    m' == m || forall i :: i in m' ==>
      if i < n then i in m && m'[i] == m[i].(pending := m'[i].pending) else m'[i].proxy.None?
  }

  ghost predicate QuietTechniques(m: map<Id, Q.Technique>, m': map<Id, Q.Technique>, n: Id) {
    m' == m || forall i :: i in m' ==>
      if i < n then i in m && m'[i] == m[i].(pending := m'[i].pending)
      else m'[i].proxy.None? && !m'[i].committed && m'[i].current == Q.NOTHING_BOUND
  }

  ghost predicate QuietUnits(m: map<Id, RenderingUnit>, m': map<Id, RenderingUnit>, n: Id) {
    m' == m || forall i :: i in m' ==>
      if i < n then i in m && m'[i] == m[i] else !m'[i].proxy && !m'[i].committed
  }

  ghost predicate QuietObjects(m: map<Id, VirtualObject>, m': map<Id, VirtualObject>, n: Id) {
    m' == m || forall i :: i in m' ==>
      if i < n then i in m && m'[i] == m[i].(app := m'[i].app) && (m[i].committed ==> m'[i] == m[i])
      else m'[i].proxy.None? && !m'[i].committed
  }

  ghost predicate QuietGl(g: Gl, g': Gl, n: Id) {
    && QuietBuffers(g.buffers, g'.buffers, n) && QuietTextures(g.textures, g'.textures, n)
    && QuietSamplers(g.samplers, g'.samplers, n) && QuietShaders(g.shaders, g'.shaders, n)
    && QuietPrograms(g.programs, g'.programs, n) && QuietArrays(g.arrays, g'.arrays, n)
    && QuietTechniques(g.techniques, g'.techniques, n)
  }

  ghost predicate Quiet(s: Scene, s': Scene) {
    && s'.session == s.session && s.next <= s'.next && QuietGl(s.gl, s'.gl, s.next)
    && QuietUnits(s.units, s'.units, s.next) && QuietObjects(s.objects, s'.objects, s.next)
  }

  lemma QuietKeepsArray(g: Gl, g': Gl, n: Id, a: Id)
    requires KnownGl(g, n) && QuietGl(g, g', n) && a in g.arrays && a in g'.arrays
    requires ArraySettled(g, Some(a))
    ensures ArraySettled(g', Some(a))
  {
    assert AttributesBelow(g.arrays[a].current, n);
    assert g'.arrays[a].current == g.arrays[a].current;
  }

  lemma QuietKeepsSettled(g: Gl, g': Gl, n: Id, c: Q.Bound)
    requires KnownGl(g, n) && QuietGl(g, g', n) && BoundBelow(c, n)
    requires Settled(g, c)
    ensures Settled(g', c)
  {
    if c.vertexArray.Some? && c.vertexArray.value in g'.arrays {
      QuietKeepsArray(g, g', n, c.vertexArray.value);
    }
    if c.program.Some? && c.program.value in g'.programs {
      var p := c.program.value;
      assert Below(P.Elements(g.programs[p].current.shaders), n);
      assert forall h :: h in g.programs[p].current.shaders ==> h in P.Elements(g.programs[p].current.shaders);
    }
  }

  lemma QuietMirror(g: Gl, g': Gl, n: Id, r: Q.RemoteTechnique, c: Q.Bound)
    requires KnownGl(g, n) && QuietGl(g, g', n) && BoundBelow(c, n)
    requires Q.Mirrored(r, c, g.Live())
    ensures Q.Mirrored(r, c, g'.Live())
  {
  }

  lemma QuietKeepsShownGl(g: Gl, g': Gl, n: Id)
    requires KnownGl(g, n) && QuietGl(g, g', n) && ShownGl(g)
    ensures ShownGl(g')
  {
    forall t | t in g'.techniques
      ensures Q.Mirrored(g'.techniques[t].Copy(), g'.techniques[t].current, g'.Live())
      ensures g'.techniques[t].committed ==> g'.techniques[t].proxy.Some? && Settled(g', g'.techniques[t].current)
    {
      if g'.techniques == g.techniques || t < n {
        var c := g.techniques[t].current;
        assert BoundBelow(c, n);
        QuietMirror(g, g', n, g.techniques[t].Copy(), c);
        if g.techniques[t].committed {
          QuietKeepsSettled(g, g', n, c);
        }
      } else {
        assert U.Mirrors([], []);
      }
    }
  }

  lemma QuietNested(s: Scene, s': Scene)
    requires Structured(s) && Known(s) && Hierarchy(s) && Quiet(s, s') && Structured(s')
    ensures Nested(s'.gl.techniques, s'.units, s'.objects)
  {
    hide BoundBelow, QuietBuffers, QuietTextures, QuietSamplers, QuietShaders, QuietPrograms, QuietArrays, NoCopies;
  }

  lemma QuietNoCopies(s: Scene, s': Scene)
    requires Known(s) && Quiet(s, s') && NoCopies(s.gl) && NoOwnerCopies(s.units, s.objects)
    ensures NoCopies(s'.gl) && NoOwnerCopies(s'.units, s'.objects)
  {
    hide BoundBelow, KnownGl;
  }

  lemma QuietKeepsShown(s: Scene, s': Scene)
    requires Inv(s) && Quiet(s, s') && Structured(s')
    ensures Shown(s') && Hierarchy(s')
  {
    hide KnownGl, NoCopies, NoOwnerCopies, ShownGl, Nested, Tree, QuietGl, Sound;
    QuietNested(s, s');
    if s.session {
      QuietKeepsShownGl(s.gl, s'.gl, s.next);
    } else {
      QuietNoCopies(s, s');
    }
  }

  // ---- every quiet step keeps the invariant -----------------------------------------

  ghost predicate KeptGl(g: Gl, g': Gl, n: Id, n': Id) {
    QuietGl(g, g', n) && KnownGl(g', n') && Sound(g')
  }

  lemma KnownLater(g: Gl, n: Id)
    requires KnownGl(g, n)
    ensures KnownGl(g, n + 1)
  {
  }

  lemma InsertTechnique(techniques: map<Id, Q.Technique>, n: Id, u: Id)
    requires TechniquesBelow(techniques, n + 1) && SoundTechniques(techniques) && n !in techniques
    ensures var more := techniques[n := Q.NewTechnique(u)];
            TechniquesBelow(more, n + 1) && SoundTechniques(more) && QuietTechniques(techniques, more, n)
  {
    assert forall t :: t in techniques ==> t < n + 1;
  }

  lemma InsertProgram(programs: map<Id, P.Program>, n: Id)
    requires ProgramsBelow(programs, n)
    ensures ProgramsBelow(programs[n := P.NEW_PROGRAM], n + 1)
            && QuietPrograms(programs, programs[n := P.NEW_PROGRAM], n)
  {
  }

  lemma InsertArray(arrays: map<Id, A.VertexArray>, n: Id)
    requires ArraysBelow(arrays, n) && SoundArrays(arrays)
    ensures var more := arrays[n := A.NEW_ARRAY];
            ArraysBelow(more, n + 1) && SoundArrays(more) && QuietArrays(arrays, more, n)
  {
  }

  lemma MadeDataKept(g: Gl, n: Id, c: Creation)
    requires KnownGl(g, n) && Sound(g) && (c.NewBuffer? || c.NewTexture? || c.NewSampler?)
    ensures KeptGl(g, Made(g, n, c), n, n + 1)
  {
    KnownLater(g, n);
  }

  lemma MadeArrayKept(g: Gl, n: Id, c: Creation)
    requires KnownGl(g, n) && Sound(g) && (c.NewProgram? || c.NewVertexArray?)
    ensures KeptGl(g, Made(g, n, c), n, n + 1)
  {
    KnownLater(g, n);
    if c.NewProgram? {
      InsertProgram(g.programs, n);
    } else {
      InsertArray(g.arrays, n);
    }
  }

  lemma MadeTechniqueKept(g: Gl, n: Id, c: Creation)
    requires KnownGl(g, n) && Sound(g) && c.NewTechnique?
    ensures KeptGl(g, Made(g, n, c), n, n + 1)
  {
    KnownLater(g, n);
    InsertTechnique(g.techniques, n, c.ofUnit);
  }

  lemma MadeShaderKept(g: Gl, n: Id, c: Creation)
    requires KnownGl(g, n) && Sound(g) && c.NewShader?
    ensures KeptGl(g, Made(g, n, c), n, n + 1)
  {
    KnownLater(g, n);
    assert QuietShaders(g.shaders, Made(g, n, c).shaders, n);
  }

  lemma MadeMemoryKept(g: Gl, n: Id, c: Creation)
    requires KnownGl(g, n) && Sound(g) && c.NewMemory?
    ensures KeptGl(g, Made(g, n, c), n, n + 1)
  {
    hide ProgramsBelow, ArraysBelow, TechniquesBelow, Sound;
    hide QuietBuffers, QuietTextures, QuietSamplers, QuietShaders, QuietPrograms, QuietArrays, QuietTechniques;
    NothingKept(g, n);
    MemoryApart(g, g.shm[n := c.bytes], n, n + 1);
  }

  lemma MemoryApart(g: Gl, shm: map<Id, Bytes>, n: Id, n': Id)
    requires KeptGl(g, g, n, n') && Below(shm.Keys, n')
    ensures KeptGl(g, g.(shm := shm), n, n')
  {
  }

  lemma NothingKept(g: Gl, n: Id)
    requires KnownGl(g, n) && Sound(g)
    ensures KeptGl(g, g, n, n + 1)
  {
    KnownLater(g, n);
  }

  lemma MadeKept(g: Gl, n: Id, c: Creation)
    requires KnownGl(g, n) && Sound(g)
    ensures KeptGl(g, Made(g, n, c), n, n + 1)
  {
    hide KnownGl, Sound, KeptGl;
    if c.NewBuffer? || c.NewTexture? || c.NewSampler? {
      MadeDataKept(g, n, c);
    } else if c.NewProgram? || c.NewVertexArray? {
      MadeArrayKept(g, n, c);
    } else if c.NewTechnique? {
      MadeTechniqueKept(g, n, c);
    } else if c.NewShader? {
      MadeShaderKept(g, n, c);
    } else if c.NewMemory? {
      MadeMemoryKept(g, n, c);
    } else {
      assert Made(g, n, c) == g;
      NothingKept(g, n);
    }
  }

  lemma WithoutKept(g: Gl, n: Id, i: Id)
    requires KnownGl(g, n) && Sound(g)
    ensures KeptGl(g, Without(g, i), n, n)
  {
  }

  lemma ProgramKept(g: Gl, n: Id, i: Id, r: P.Request)
    requires KnownGl(g, n) && Sound(g)
    requires i in g.programs && (r.AttachShader? ==> r.shader in g.shaders)
    ensures KeptGl(g, g.(programs := g.programs[i := g.programs[i].Requested(r)]), n, n)
  {
    var p := g.programs[i].Requested(r);
    forall h | h in p.pending.shaders
      ensures h < n
    {
      assert h in P.Elements(g.programs[i].pending.shaders) || h in g.shaders.Keys;
    }
  }

  lemma ArrayKept(g: Gl, n: Id, i: Id, r: A.Request)
    requires KnownGl(g, n) && Sound(g)
    requires i in g.arrays && (r.SetPointer? ==> r.pointer.buffer in g.buffers)
    ensures KeptGl(g, g.(arrays := g.arrays[i := g.arrays[i].Requested(r)]), n, n)
  {
    A.RequestsKeepFlags(g.arrays[i], r);
  }

  lemma RequestBelow(g: Gl, n: Id, t: Q.Technique, r: Q.Request)
    requires KnownGl(g, n) && BoundBelow(t.pending, n) && t.WellFormed() && r.Allowed(g.Live())
    ensures BoundBelow(t.Requested(r).pending, n)
  {
    if r.BindTexture? {
      TB.EmplaceUnique(t.pending.textures.list, r.binding);
    }
  }

  lemma OneTechniqueKept(g: Gl, n: Id, i: Id, t: Q.Technique)
    requires KnownGl(g, n) && Sound(g) && i in g.techniques
    requires t == g.techniques[i].(pending := t.pending) && BoundBelow(t.pending, n) && t.WellFormed()
    ensures KeptGl(g, g.(techniques := g.techniques[i := t]), n, n)
  {
    hide ProgramsBelow, ArraysBelow, SoundBuffers, SoundTextures, SoundSamplers, SoundArrays;
  }

  lemma TechniqueKept(g: Gl, n: Id, i: Id, r: Q.Request)
    requires KnownGl(g, n) && Sound(g)
    requires i in g.techniques && r.Allowed(g.Live())
    ensures KeptGl(g, g.(techniques := g.techniques[i := g.techniques[i].Requested(r)]), n, n)
  {
    hide KeptGl, BoundBelow;
    Q.RequestWellFormed(g.techniques[i], r, g.Live());
    RequestBelow(g, n, g.techniques[i], r);
    OneTechniqueKept(g, n, i, g.techniques[i].Requested(r));
  }

  lemma StillKept(g: Gl, n: Id)
    requires KnownGl(g, n) && Sound(g)
    ensures KeptGl(g, g, n, n)
  {
  }

  lemma DataKept(g: Gl, n: Id, e: Event)
    requires KnownGl(g, n) && Sound(g) && NamesGl(g, e)
    requires e.WriteMemory? || e.OnBuffer? || e.OnTexture? || e.OnSampler?
    ensures KeptGl(g, Requested(g, e), n, n)
  {
    hide ProgramsBelow, ArraysBelow, TechniquesBelow, SoundArrays, SoundTechniques;
  }

  lemma RequestedKept(g: Gl, n: Id, e: Event)
    requires KnownGl(g, n) && Sound(g) && NamesGl(g, e)
    ensures KeptGl(g, Requested(g, e), n, n)
    ensures Requested(g, e).techniques.Keys <= g.techniques.Keys
  {
    hide KnownGl, Sound, KeptGl;
    match e
    case Destroy(i) => WithoutKept(g, n, i);
    case OnProgram(i, r) => ProgramKept(g, n, i, r);
    case OnVertexArray(i, r) => ArrayKept(g, n, i, r);
    case OnTechnique(i, r) => TechniqueKept(g, n, i, r);
    case WriteMemory(_, _) => DataKept(g, n, e);
    case OnBuffer(_, _, _, _) => DataKept(g, n, e);
    case OnTexture(_, _) => DataKept(g, n, e);
    case OnSampler(_, _, _, _) => DataKept(g, n, e);
    case _ => StillKept(g, n);
  }

  lemma FewerTechniques(
    techniques: map<Id, Q.Technique>, fewer: map<Id, Q.Technique>, units: map<Id, RenderingUnit>,
    objects: map<Id, VirtualObject>, n: Id)
    requires Tree(techniques, units, objects) && Below(techniques.Keys, n)
    requires fewer.Keys <= techniques.Keys && QuietTechniques(techniques, fewer, n)
    ensures Tree(fewer, units, objects)
  {
    assert forall t :: t in fewer ==> t in techniques && t in techniques.Keys;
  }

  lemma OneMoreTechnique(
    techniques: map<Id, Q.Technique>, units: map<Id, RenderingUnit>, objects: map<Id, VirtualObject>, n: Id, u: Id)
    requires Tree(techniques, units, objects) && n !in techniques
    requires u in units && forall t :: t in techniques ==> techniques[t].unit != u
    ensures Tree(techniques[n := Q.NewTechnique(u)], units, objects)
  {
  }

  lemma OneMoreUnit(
    techniques: map<Id, Q.Technique>, units: map<Id, RenderingUnit>, objects: map<Id, VirtualObject>, n: Id, v: Id)
    requires Tree(techniques, units, objects) && Below(units.Keys, n) && v in objects
    ensures var more := units[n := RenderingUnit(v, false, false)];
            Tree(techniques, more, objects) && QuietUnits(units, more, n) && Below(more.Keys, n + 1)
  {
    assert forall u :: u in units ==> u in units.Keys;
  }

  lemma OneMoreObject(
    techniques: map<Id, Q.Technique>, units: map<Id, RenderingUnit>, objects: map<Id, VirtualObject>, n: Id)
    requires Tree(techniques, units, objects) && Below(objects.Keys, n)
    ensures var more := objects[n := VirtualObject(false, None, None)];
            Tree(techniques, units, more) && QuietObjects(objects, more, n) && Below(more.Keys, n + 1)
  {
    assert forall v :: v in objects ==> v in objects.Keys;
  }

  lemma MadeTree(
    g: Gl, units: map<Id, RenderingUnit>, objects: map<Id, VirtualObject>, n: Id, c: Creation)
    requires Tree(g.techniques, units, objects) && n !in g.techniques
    requires c.NewTechnique? ==> c.ofUnit in units && forall t :: t in g.techniques ==> g.techniques[t].unit != c.ofUnit
    ensures Tree(Made(g, n, c).techniques, units, objects)
  {
    if c.NewTechnique? {
      OneMoreTechnique(g.techniques, units, objects, n, c.ofUnit);
    }
  }

  lemma GlAfterKept(g: Gl, n: Id, e: Event)
    requires KnownGl(g, n) && Sound(g) && NamesGl(g, e)
    ensures KeptGl(g, GlAfter(g, n, e), n, NextAfter(n, e))
  {
    if e.Create? {
      MadeKept(g, n, e.creation);
    } else {
      RequestedKept(g, n, e);
    }
  }

  lemma OwnersAfterKept(s: Scene, e: Event)
    requires Structured(s) && Known(s) && Allowed(s, e) && !Cascades(e)
    ensures QuietUnits(s.units, UnitsAfter(s.units, s.next, e), s.next)
    ensures QuietObjects(s.objects, ObjectsAfter(s.objects, s.next, e), s.next)
    ensures Below(UnitsAfter(s.units, s.next, e).Keys, NextAfter(s.next, e))
    ensures Below(ObjectsAfter(s.objects, s.next, e).Keys, NextAfter(s.next, e))
  {
    if e.Create? && e.creation.NewUnit? {
      OneMoreUnit(s.gl.techniques, s.units, s.objects, s.next, e.creation.ofObject);
    } else if e.Create? && e.creation.NewObject? {
      OneMoreObject(s.gl.techniques, s.units, s.objects, s.next);
    }
  }

  lemma TreeAfterKept(s: Scene, e: Event)
    requires Structured(s) && Known(s) && Sound(s.gl) && Allowed(s, e) && !Cascades(e)
    ensures Tree(GlAfter(s.gl, s.next, e).techniques, UnitsAfter(s.units, s.next, e),
            ObjectsAfter(s.objects, s.next, e))
  {
    if e.Create? {
      assert s.next !in s.gl.techniques;
      MadeTree(s.gl, s.units, s.objects, s.next, e.creation);
      if e.creation.NewUnit? {
        OneMoreUnit(s.gl.techniques, s.units, s.objects, s.next, e.creation.ofObject);
      } else if e.creation.NewObject? {
        OneMoreObject(s.gl.techniques, s.units, s.objects, s.next);
      }
    } else {
      RequestedKept(s.gl, s.next, e);
      FewerTechniques(s.gl.techniques, Requested(s.gl, e).techniques, s.units, s.objects, s.next);
    }
  }

  lemma Assemble(s: Scene, s': Scene)
    requires Inv(s)
    requires s'.session == s.session && s.next <= s'.next && KeptGl(s.gl, s'.gl, s.next, s'.next)
    requires QuietUnits(s.units, s'.units, s.next) && QuietObjects(s.objects, s'.objects, s.next)
    requires Below(s'.units.Keys, s'.next) && Below(s'.objects.Keys, s'.next)
    requires Tree(s'.gl.techniques, s'.units, s'.objects)
    ensures Inv(s')
  {
    QuietKeepsShown(s, s');
  }

  lemma QuietStepKeeps(s: Scene, e: Event)
    requires Inv(s) && Allowed(s, e) && !Cascades(e)
    ensures Inv(QuietStep(s, e))
  {
    GlAfterKept(s.gl, s.next, e);
    OwnersAfterKept(s, e);
    TreeAfterKept(s, e);
    Assemble(s, QuietStep(s, e));
  }

  lemma QuietGraphics(s: Scene, e: Event)
    requires Allowed(s, e) && !Cascades(e)
    ensures Step(s, e).gl == GlAfter(s.gl, s.next, e)
  {
  }

  lemma UprootKept(g: Gl, fewer: map<Id, Q.Technique>, n: Id)
    requires KnownGl(g, n) && Sound(g)
    requires forall t :: t in fewer ==> t in g.techniques && fewer[t] == g.techniques[t]
    ensures KeptGl(g, g.(techniques := fewer), n, n)
  {
    hide ProgramsBelow, ArraysBelow;
  }

  lemma UprootKeeps(s: Scene, i: Id)
    requires Inv(s)
    ensures Inv(Uprooted(s, i))
  {
    hide ShownGl, ShownOwners, NoCopies, Nested;
    var s' := Uprooted(s, i);
    assert forall t :: t in s'.gl.techniques ==> t in s.gl.techniques && s.gl.techniques[t].unit in s.units;
    UprootKept(s.gl, s'.gl.techniques, s.next);
    Assemble(s, s');
  }
}
