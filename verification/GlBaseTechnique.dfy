// The technique object: it commits and syncs its own fields and lists, and
// calls the objects it points to.
module BaseTechniques {
  import opened Common
  import opened Scenes
  import U = Uniforms
  import B = Buffers
  import T = Textures
  import S = Samplers
  import H = Shaders
  import P = Programs
  import A = VertexArrays
  import D = DrawCalls
  import TB = TextureBindings
  import Q = Techniques

  // The live objects of the kinds that techniques hold weak pointers to.
  datatype Leaves = Leaves(
    buffers: B.Registry, textures: T.Registry, samplers: S.Registry, shaders: H.Registry, programs: P.Registry,
    arrays: A.Registry)
  {
    ghost predicate Filed() {
      && B.Filed(buffers) && T.Filed(textures) && S.Filed(samplers) && H.Filed(shaders) && P.Filed(programs)
      && A.Filed(arrays)
    }

    ghost function Objects(): set<object> {
      buffers.Values + textures.Values + samplers.Values + shaders.Values + programs.Values + arrays.Values
    }

    ghost function State(shm: map<Id, Bytes>): (g: Gl)
      reads Objects()
      ensures g.Live() == Live() && g.shaders.Keys == shaders.Keys
    {
      Gl(shm, B.States(buffers), T.States(textures), S.States(samplers), H.States(shaders), P.States(programs),
         A.States(arrays), map[])
    }

    lemma AllFiled()
      requires Filed()
      ensures B.Filed(buffers) && T.Filed(textures) && S.Filed(samplers) && H.Filed(shaders) && P.Filed(programs)
      ensures A.Filed(arrays)
    {
    }

    // Objects of different kinds are different objects.
    lemma KindsApart()
      ensures forall o: object :: o in textures.Values || o in samplers.Values ==>
                o !in programs.Values && o !in arrays.Values && o !in shaders.Values && o !in buffers.Values
      ensures forall o: object :: o in textures.Values ==> o !in samplers.Values
      ensures forall o: object :: o in buffers.Values ==>
                o !in programs.Values && o !in arrays.Values && o !in shaders.Values
      ensures forall o: object :: o in arrays.Values ==> o !in programs.Values && o !in shaders.Values
      ensures forall o: object :: o in programs.Values ==> o !in shaders.Values
    {
    }

    ghost function Live(): Q.Live {
      Q.Live(buffers.Keys, textures.Keys, samplers.Keys, programs.Keys, arrays.Keys)
    }
  }

  // What each kind of target has become is together what the scene's cascade
  // makes of them.
  lemma CommitAssembles(g: Gl, t: Q.Technique, c: Q.Bound, after: Gl)
    requires c == t.CommittedCurrent(g.Live())
    requires after == g.(buffers := after.buffers, textures := after.textures, samplers := after.samplers,
                         programs := after.programs, arrays := after.arrays)
    requires after.programs == P.CommitSome(g.programs, Opt(c.program))
    requires after.arrays == A.CommitSome(g.arrays, Opt(c.vertexArray))
    requires after.buffers ==
             B.CommitSome(g.buffers, A.PendingBuffers(g.arrays, c.vertexArray) + D.CommitBuffers(t.pending.draw), g.shm)
    requires after.textures == T.CommitSome(g.textures, TB.TexturesOf(c.textures.list), g.shm)
    requires after.samplers == S.CommitSome(g.samplers, TB.SamplersOf(c.textures.list))
    ensures after == CommitLeaves(g, CommitReach(g, t))
  {
  }

  lemma SyncAssembles(g: Gl, t: Q.Technique, force: bool, list: seq<TB.Binding>, after: Gl)
    requires list == TB.KeepLive(t.current.textures.list, g.textures.Keys, g.samplers.Keys)
    requires after.shm == g.shm && after.techniques == g.techniques
    requires after.programs == P.SyncSome(g.programs, Opt(t.current.program), force, g.shaders.Keys)
    requires after.shaders == H.SyncSome(g.shaders, P.CurrentShaders(g.programs, t.current.program, g.shaders.Keys))
    requires after.arrays == A.SyncSome(g.arrays, Opt(t.current.vertexArray), force, g.buffers.Keys)
    requires after.buffers ==
             B.SyncSome(g.buffers, A.CurrentBuffers(g.arrays, t.current.vertexArray) + t.current.draw.data.BufferSet(),
                 force)
    requires after.textures == T.SyncSome(g.textures, TB.TexturesOf(list), force)
    requires after.samplers == S.SyncSome(g.samplers, TB.SamplersOf(list), force)
    ensures after == SyncLeaves(g, SyncReach(g, t), force)
  {
  }

  // Whether there was a copy does not show once there is one.
  lemma CopyMade(g: Gl, t: Q.Technique, proxy: Option<Q.RemoteTechnique>, force: bool, live: Q.Live)
    requires proxy == Some(t.proxy.GetOr(Q.NEW_COPY))
    ensures t.(proxy := proxy).Sync(force, live) == t.Sync(force, live)
    ensures SyncReach(g, t.(proxy := proxy)) == SyncReach(g, t)
  {
  }

  lemma SyncedWhole(t: Q.Technique, force: bool, live: Q.Live, textures: TB.Bindings, r: Q.RemoteTechnique)
    requires t.proxy.Some? && textures == TB.SyncCurrent(t.current.textures, live.textures, live.samplers)
    requires r.program ==
             Q.Send(force || t.current.programChanged, t.current.program, live.programs, t.proxy.value.program)
    requires r.vertexArray ==
             Q.Send(force || t.current.arrayChanged, t.current.vertexArray, live.arrays, t.proxy.value.vertexArray)
    requires r.textures ==
             TB.SyncRemote(t.proxy.value.textures, t.current.textures, force, live.textures, live.samplers)
    requires r.uniforms == t.proxy.value.uniforms + U.Messages(t.current.uniforms, force)
    requires r.draw == D.SyncRemote(t.proxy.value.draw, t.current.draw, force, live.buffers)
    ensures t.(current := t.current.(textures := textures), proxy := Some(r)) == t.Sync(force, live)
  {
  }

  class GlBaseTechnique {
    const id: Id
    const unit: Id
    var committed: bool
    var pendingProgramChanged: bool
    var pendingProgram: Option<Id>
    var pendingArrayChanged: bool
    var pendingArray: Option<Id>
    const pendingTextures: TB.TextureBindingList
    const pendingDraw: D.DrawApiArgs
    const pendingUniforms: U.UniformVariableList
    var currentProgramChanged: bool
    var currentProgram: Option<Id>
    var currentArrayChanged: bool
    var currentArray: Option<Id>
    const currentTextures: TB.TextureBindingList
    const currentDraw: D.DrawApiArgs
    const currentUniforms: U.UniformVariableList
    // The copy on the renderer; its lists grow call by call.
    var proxy: Option<Q.RemoteTechnique>

    constructor (id: Id, unit: Id)
      ensures this.id == id && this.unit == unit && Valid() && fresh(Repr())
      ensures State() == Q.NewTechnique(unit)
    {
      this.id, this.unit := id, unit;
      committed, proxy := false, None;
      pendingProgramChanged, pendingProgram, pendingArrayChanged, pendingArray := false, None, false, None;
      currentProgramChanged, currentProgram, currentArrayChanged, currentArray := false, None, false, None;
      pendingTextures := new TB.TextureBindingList(id, true);
      currentTextures := new TB.TextureBindingList(id, false);
      pendingDraw := new D.DrawApiArgs(id, true);
      currentDraw := new D.DrawApiArgs(id, false);
      pendingUniforms := new U.UniformVariableList(id, true);
      currentUniforms := new U.UniformVariableList(id, false);
    }

    // The lists belong to this technique and to no other.
    ghost predicate Valid() {
      && pendingTextures.owner == currentTextures.owner == pendingDraw.owner == currentDraw.owner == id
      && pendingUniforms.owner == currentUniforms.owner == id
      && pendingTextures.isPending && pendingDraw.isPending && pendingUniforms.isPending
      && !currentTextures.isPending && !currentDraw.isPending && !currentUniforms.isPending
    }

    lemma TexturesApart()
      requires Valid()
      ensures pendingTextures != currentTextures
    {
    }

    function Repr(): set<object> {
      {this, pendingTextures, currentTextures, pendingDraw, currentDraw, pendingUniforms, currentUniforms}
    }

    function Pending(): Q.Bound
      reads Repr()
    {
      Q.Bound(pendingProgramChanged, pendingProgram, pendingArrayChanged, pendingArray,
              pendingTextures.State(), pendingDraw.State(), pendingUniforms.list)
    }

    function Current(): Q.Bound
      reads Repr()
    {
      Q.Bound(currentProgramChanged, currentProgram, currentArrayChanged, currentArray,
              currentTextures.State(), currentDraw.State(), currentUniforms.list)
    }

    function State(): Q.Technique
      reads Repr()
    {
      Q.Technique(unit, committed, Pending(), Current(), proxy)
    }

    method RequestBindProgram(program: Id)
      requires Valid()
      modifies this
      ensures State() == old(State()).Requested(Q.BindProgram(program))
    {
      pendingProgram := Some(program);
      pendingProgramChanged := true;
    }

    method RequestBindVertexArray(vertexArray: Id)
      requires Valid()
      modifies this
      ensures State() == old(State()).Requested(Q.BindVertexArray(vertexArray))
    {
      pendingArray := Some(vertexArray);
      pendingArrayChanged := true;
    }

    method RequestBindTexture(b: TB.Binding)
      requires Valid()
      modifies pendingTextures
      ensures State() == old(State()).Requested(Q.BindTexture(b))
    {
      pendingTextures.EmplaceBinding(b);
    }

    method NewUniformVar(u: U.Uniform)
      requires Valid()
      modifies pendingUniforms
      ensures State() == old(State()).Requested(Q.NewUniform(u))
    {
      pendingUniforms.Emplace(u);
    }

    method RequestDrawArrays(mode: nat, first: int, count: nat)
      requires Valid()
      modifies pendingDraw
      ensures State() == old(State()).Requested(Q.SetDraw(D.Arrays(mode, first, count)))
    {
      pendingDraw.SetArraysArgs(mode, first, count);
    }

    method RequestDrawElements(mode: nat, count: nat, indexType: nat, offset: nat, buffer: Id)
      requires Valid()
      modifies pendingDraw
      ensures State() == old(State()).Requested(Q.SetDraw(D.Elements(mode, count, indexType, offset, buffer)))
    {
      pendingDraw.SetElementsArgs(mode, count, indexType, offset, buffer);
    }

    method CommitProgram(programs: P.Registry)
      requires Valid() && P.Filed(programs)
      modifies `pendingProgramChanged, `currentProgramChanged, `currentProgram, programs.Values
      ensures !pendingProgramChanged && currentProgramChanged == old(pendingProgramChanged)
      ensures currentProgram == Q.Pick(old(pendingProgramChanged), pendingProgram, old(currentProgram))
      ensures P.States(programs) == P.CommitSome(old(P.States(programs)), Opt(currentProgram))
    {
      currentProgramChanged := pendingProgramChanged;
      if pendingProgramChanged {
        currentProgram := pendingProgram;
        pendingProgramChanged := false;
      }
      assert unchanged(programs.Values);
      var _ := P.CommitSlot(programs, currentProgram);
    }

    method CommitVertexArray(arrays: A.Registry, buffers: B.Registry, shm: map<Id, Bytes>)
      requires Valid() && A.Filed(arrays) && B.Filed(buffers)
      modifies `pendingArrayChanged, `currentArrayChanged, `currentArray, arrays.Values, buffers.Values
      ensures !pendingArrayChanged && currentArrayChanged == old(pendingArrayChanged)
      ensures currentArray == Q.Pick(old(pendingArrayChanged), pendingArray, old(currentArray))
      ensures A.States(arrays) == A.CommitSome(old(A.States(arrays)), Opt(currentArray))
      ensures B.States(buffers) ==
              B.CommitSome(old(B.States(buffers)), A.PendingBuffers(old(A.States(arrays)), currentArray), shm)
    {
      hide A.CommitSome, B.CommitSome, A.States, B.States, A.PendingBuffers;
      TakeVertexArray();
      assert unchanged(arrays.Values) && unchanged(buffers.Values);
      A.CommitSlot(arrays, currentArray, buffers, shm);
    }

    method TakeVertexArray()
      modifies `pendingArrayChanged, `currentArrayChanged, `currentArray
      ensures !pendingArrayChanged && currentArrayChanged == old(pendingArrayChanged)
      ensures currentArray == Q.Pick(old(pendingArrayChanged), pendingArray, old(currentArray))
    {
      currentArrayChanged := pendingArrayChanged;
      if pendingArrayChanged {
        currentArray := pendingArray;
        pendingArrayChanged := false;
      }
    }

    method CommitSlots(programs: P.Registry, arrays: A.Registry, buffers: B.Registry, shm: map<Id, Bytes>)
      requires Valid() && P.Filed(programs) && A.Filed(arrays) && B.Filed(buffers)
      modifies `pendingProgramChanged, `currentProgramChanged, `currentProgram, programs.Values
      modifies `pendingArrayChanged, `currentArrayChanged, `currentArray, arrays.Values, buffers.Values
      ensures !pendingProgramChanged && currentProgramChanged == old(pendingProgramChanged)
      ensures currentProgram == Q.Pick(old(pendingProgramChanged), pendingProgram, old(currentProgram))
      ensures !pendingArrayChanged && currentArrayChanged == old(pendingArrayChanged)
      ensures currentArray == Q.Pick(old(pendingArrayChanged), pendingArray, old(currentArray))
      ensures P.States(programs) == P.CommitSome(old(P.States(programs)), Opt(currentProgram))
      ensures A.States(arrays) == A.CommitSome(old(A.States(arrays)), Opt(currentArray))
      ensures B.States(buffers) ==
              B.CommitSome(old(B.States(buffers)), A.PendingBuffers(old(A.States(arrays)), currentArray), shm)
    {
      hide *;
      CommitProgram(programs);
      label programDone:
      assert A.States(arrays) == old(A.States(arrays)) && B.States(buffers) == old(B.States(buffers));
      CommitVertexArray(arrays, buffers, shm);
      assert unchanged@programDone(programs.Values);
    }

    method CommitDrawAndUniforms(buffers: B.Registry, shm: map<Id, Bytes>)
      requires Valid() && B.Filed(buffers)
      modifies pendingDraw, currentDraw, pendingUniforms, currentUniforms, buffers.Values
      ensures pendingDraw.State() == D.CommitPending(old(pendingDraw.State()))
      ensures currentDraw.State() == D.CommitCurrent(old(pendingDraw.State()), old(currentDraw.State()))
      ensures pendingUniforms.list == []
      ensures currentUniforms.list == U.CommitList(old(currentUniforms.list), old(pendingUniforms.list))
      ensures B.States(buffers) == B.CommitSome(old(B.States(buffers)), D.CommitBuffers(old(pendingDraw.State())), shm)
    {
      D.DrawApiArgs.Commit(pendingDraw, currentDraw, buffers, shm);
      label drawn:
      U.UniformVariableList.Commit(pendingUniforms, currentUniforms);
      assert unchanged@drawn(buffers.Values);
    }

    // Draw call, uniforms and texture bindings.
    method CommitLists(
      buffers: B.Registry, textures: T.Registry, samplers: S.Registry, shm: map<Id, Bytes>)
      requires Valid() && B.Filed(buffers) && T.Filed(textures) && S.Filed(samplers)
      modifies pendingDraw, currentDraw, pendingUniforms, currentUniforms, pendingTextures, currentTextures
      modifies buffers.Values, textures.Values, samplers.Values
      ensures pendingDraw.State() == D.CommitPending(old(pendingDraw.State()))
      ensures currentDraw.State() == D.CommitCurrent(old(pendingDraw.State()), old(currentDraw.State()))
      ensures pendingUniforms.list == []
      ensures currentUniforms.list == U.CommitList(old(currentUniforms.list), old(pendingUniforms.list))
      ensures pendingTextures.State() == TB.CommitPending(old(pendingTextures.State()), textures.Keys, samplers.Keys)
      ensures currentTextures.State() ==
              TB.CommitCurrent(old(pendingTextures.State()), old(currentTextures.State()), textures.Keys, samplers.Keys)
      ensures B.States(buffers) == B.CommitSome(old(B.States(buffers)), D.CommitBuffers(old(pendingDraw.State())), shm)
      ensures T.States(textures) == T.CommitSome(old(T.States(textures)), TB.TexturesOf(currentTextures.list), shm)
      ensures S.States(samplers) == S.CommitSome(old(S.States(samplers)), TB.SamplersOf(currentTextures.list))
    {
      hide *;
      TexturesApart();
      CommitDrawAndUniforms(buffers, shm);
      label listsDone:
      assert T.States(textures) == old(T.States(textures)) && S.States(samplers) == old(S.States(samplers));
      TB.TextureBindingList.Commit(pendingTextures, currentTextures, textures, samplers, shm);
      assert unchanged@listsDone(buffers.Values);
    }

    // The slots' part of a commit leaves the lists and their targets alone,
    method CommitSlotsOnly(leaves: Leaves, shm: map<Id, Bytes>)
      requires Valid() && leaves.Filed()
      modifies `pendingProgramChanged, `currentProgramChanged, `currentProgram
      modifies `pendingArrayChanged, `currentArrayChanged, `currentArray
      modifies leaves.programs.Values, leaves.arrays.Values, leaves.buffers.Values
      ensures pendingDraw.State() == old(pendingDraw.State()) && currentDraw.State() == old(currentDraw.State())
      ensures pendingTextures.State() == old(pendingTextures.State())
      ensures currentTextures.State() == old(currentTextures.State())
      ensures pendingUniforms.list == old(pendingUniforms.list) && currentUniforms.list == old(currentUniforms.list)
      ensures !pendingProgramChanged && currentProgramChanged == old(pendingProgramChanged)
      ensures currentProgram == Q.Pick(old(pendingProgramChanged), pendingProgram, old(currentProgram))
      ensures !pendingArrayChanged && currentArrayChanged == old(pendingArrayChanged)
      ensures currentArray == Q.Pick(old(pendingArrayChanged), pendingArray, old(currentArray))
      ensures P.States(leaves.programs) == P.CommitSome(old(P.States(leaves.programs)), Opt(currentProgram))
      ensures A.States(leaves.arrays) == A.CommitSome(old(A.States(leaves.arrays)), Opt(currentArray))
      ensures B.States(leaves.buffers) ==
              B.CommitSome(old(B.States(leaves.buffers)), A.PendingBuffers(old(A.States(leaves.arrays)), currentArray),
                  shm)
      ensures T.States(leaves.textures) == old(T.States(leaves.textures))
      ensures S.States(leaves.samplers) == old(S.States(leaves.samplers))
    {
      hide *;
      leaves.KindsApart();
      leaves.AllFiled();
      CommitSlots(leaves.programs, leaves.arrays, leaves.buffers, shm);
    }

    // and the lists' part the slots and theirs.
    method CommitListsOnly(leaves: Leaves, shm: map<Id, Bytes>)
      requires Valid() && leaves.Filed()
      modifies pendingDraw, currentDraw, pendingUniforms, currentUniforms, pendingTextures, currentTextures
      modifies leaves.buffers.Values, leaves.textures.Values, leaves.samplers.Values
      ensures pendingDraw.State() == D.CommitPending(old(pendingDraw.State()))
      ensures currentDraw.State() == D.CommitCurrent(old(pendingDraw.State()), old(currentDraw.State()))
      ensures pendingUniforms.list == []
      ensures currentUniforms.list == U.CommitList(old(currentUniforms.list), old(pendingUniforms.list))
      ensures pendingTextures.State() ==
              TB.CommitPending(old(pendingTextures.State()), leaves.textures.Keys, leaves.samplers.Keys)
      ensures currentTextures.State() ==
              TB.CommitCurrent(old(pendingTextures.State()), old(currentTextures.State()),
                               leaves.textures.Keys, leaves.samplers.Keys)
      ensures B.States(leaves.buffers) ==
              B.CommitSome(old(B.States(leaves.buffers)), D.CommitBuffers(old(pendingDraw.State())), shm)
      ensures T.States(leaves.textures) ==
              T.CommitSome(old(T.States(leaves.textures)), TB.TexturesOf(currentTextures.list), shm)
      ensures S.States(leaves.samplers) ==
              S.CommitSome(old(S.States(leaves.samplers)), TB.SamplersOf(currentTextures.list))
      ensures P.States(leaves.programs) == old(P.States(leaves.programs))
      ensures A.States(leaves.arrays) == old(A.States(leaves.arrays))
    {
      hide *;
      leaves.KindsApart();
      leaves.AllFiled();
      CommitLists(leaves.buffers, leaves.textures, leaves.samplers, shm);
    }

    method CommitTargets(leaves: Leaves, shm: map<Id, Bytes>)
      requires Valid() && leaves.Filed()
      modifies pendingDraw, currentDraw, pendingUniforms, currentUniforms, pendingTextures, currentTextures
      modifies leaves.buffers.Values, leaves.textures.Values, leaves.samplers.Values, leaves.programs.Values
      modifies leaves.arrays.Values
      modifies `pendingProgramChanged, `currentProgramChanged, `currentProgram
      modifies `pendingArrayChanged, `currentArrayChanged, `currentArray
      ensures pendingDraw.State() == D.CommitPending(old(pendingDraw.State()))
      ensures currentDraw.State() == D.CommitCurrent(old(pendingDraw.State()), old(currentDraw.State()))
      ensures pendingUniforms.list == []
      ensures currentUniforms.list == U.CommitList(old(currentUniforms.list), old(pendingUniforms.list))
      ensures pendingTextures.State() ==
              TB.CommitPending(old(pendingTextures.State()), leaves.textures.Keys, leaves.samplers.Keys)
      ensures currentTextures.State() ==
              TB.CommitCurrent(old(pendingTextures.State()), old(currentTextures.State()),
                               leaves.textures.Keys, leaves.samplers.Keys)
      ensures !pendingProgramChanged && currentProgramChanged == old(pendingProgramChanged)
      ensures currentProgram == Q.Pick(old(pendingProgramChanged), pendingProgram, old(currentProgram))
      ensures !pendingArrayChanged && currentArrayChanged == old(pendingArrayChanged)
      ensures currentArray == Q.Pick(old(pendingArrayChanged), pendingArray, old(currentArray))
      ensures P.States(leaves.programs) == P.CommitSome(old(P.States(leaves.programs)), Opt(currentProgram))
      ensures A.States(leaves.arrays) == A.CommitSome(old(A.States(leaves.arrays)), Opt(currentArray))
      ensures B.States(leaves.buffers) ==
              B.CommitSome(old(B.States(leaves.buffers)),
                           A.PendingBuffers(old(A.States(leaves.arrays)), currentArray) +
                           D.CommitBuffers(old(pendingDraw.State())), shm)
      ensures T.States(leaves.textures) ==
              T.CommitSome(old(T.States(leaves.textures)), TB.TexturesOf(currentTextures.list), shm)
      ensures S.States(leaves.samplers) ==
              S.CommitSome(old(S.States(leaves.samplers)), TB.SamplersOf(currentTextures.list))
    {
      hide *;
      ghost var buffers, arrays, draw := B.States(leaves.buffers), A.States(leaves.arrays), pendingDraw.State();
      CommitSlotsOnly(leaves, shm);
      CommitListsOnly(leaves, shm);
      B.CommitSomeTwice(buffers, A.PendingBuffers(arrays, currentArray), D.CommitBuffers(draw), shm);
    }

    method SyncVertexArray(session: bool, force: bool, arrays: A.Registry, buffers: B.Registry)
      requires session && Valid() && A.Filed(arrays) && B.Filed(buffers) && proxy.Some?
      modifies `proxy, arrays.Values, buffers.Values
      ensures proxy == Some(old(proxy).value.(vertexArray :=
                Q.Send(force || currentArrayChanged, currentArray, arrays.Keys, old(proxy).value.vertexArray)))
      ensures A.States(arrays) == A.SyncSome(old(A.States(arrays)), Opt(currentArray), force, buffers.Keys)
      ensures B.States(buffers) ==
              B.SyncSome(old(B.States(buffers)), A.CurrentBuffers(old(A.States(arrays)), currentArray), force)
    {
      var live := A.SyncSlot(arrays, currentArray, session, force, buffers);
      label synced:
      if live && (force || currentArrayChanged) {
        proxy := Some(proxy.value.(vertexArray := Some(arrays[currentArray.value].RemoteId())));
      }
      assert unchanged@synced(arrays.Values) && unchanged@synced(buffers.Values);
    }

    method SyncArrayOnly(
      session: bool, force: bool, arrays: A.Registry, buffers: B.Registry, programs: P.Registry, shaders: H.Registry)
      requires session && Valid() && A.Filed(arrays) && B.Filed(buffers) && proxy.Some?
      modifies `proxy, arrays.Values, buffers.Values
      ensures proxy == Some(old(proxy).value.(vertexArray :=
                Q.Send(force || currentArrayChanged, currentArray, arrays.Keys, old(proxy).value.vertexArray)))
      ensures A.States(arrays) == A.SyncSome(old(A.States(arrays)), Opt(currentArray), force, buffers.Keys)
      ensures B.States(buffers) ==
              B.SyncSome(old(B.States(buffers)), A.CurrentBuffers(old(A.States(arrays)), currentArray), force)
      ensures P.States(programs) == old(P.States(programs)) && H.States(shaders) == old(H.States(shaders))
    {
      hide *;
      SyncVertexArray(session, force, arrays, buffers);
    }

    method SyncProgram(session: bool, force: bool, programs: P.Registry, shaders: H.Registry)
      requires session && Valid() && P.Filed(programs) && H.Filed(shaders) && proxy.Some?
      modifies `proxy, programs.Values, shaders.Values
      ensures proxy == Some(old(proxy).value.(program :=
                Q.Send(force || currentProgramChanged, currentProgram, programs.Keys, old(proxy).value.program)))
      ensures P.States(programs) == P.SyncSome(old(P.States(programs)), Opt(currentProgram), force, shaders.Keys)
      ensures H.States(shaders) ==
              H.SyncSome(old(H.States(shaders)),
                  P.CurrentShaders(old(P.States(programs)), currentProgram, shaders.Keys))
    {
      var live := P.SyncSlot(programs, currentProgram, session, force, shaders);
      label synced:
      if live && (force || currentProgramChanged) {
        proxy := Some(proxy.value.(program := Some(programs[currentProgram.value].RemoteId())));
      }
      assert unchanged@synced(programs.Values) && unchanged@synced(shaders.Values);
    }

    method SyncSlots(
      session: bool, force: bool, arrays: A.Registry, buffers: B.Registry, programs: P.Registry, shaders: H.Registry)
      requires session && Valid() && A.Filed(arrays) && B.Filed(buffers) && P.Filed(programs) && H.Filed(shaders)
      requires proxy.Some?
      modifies `proxy, arrays.Values, buffers.Values, programs.Values, shaders.Values
      ensures proxy == Some(old(proxy).value.(
                vertexArray :=
                  Q.Send(force || currentArrayChanged, currentArray, arrays.Keys, old(proxy).value.vertexArray),
                program :=
                  Q.Send(force || currentProgramChanged, currentProgram, programs.Keys, old(proxy).value.program)))
      ensures A.States(arrays) == A.SyncSome(old(A.States(arrays)), Opt(currentArray), force, buffers.Keys)
      ensures B.States(buffers) ==
              B.SyncSome(old(B.States(buffers)), A.CurrentBuffers(old(A.States(arrays)), currentArray), force)
      ensures P.States(programs) == P.SyncSome(old(P.States(programs)), Opt(currentProgram), force, shaders.Keys)
      ensures H.States(shaders) ==
              H.SyncSome(old(H.States(shaders)),
                  P.CurrentShaders(old(P.States(programs)), currentProgram, shaders.Keys))
    {
      hide *;
      SyncArrayOnly(session, force, arrays, buffers, programs, shaders);
      label arrayDone:
      SyncProgram(session, force, programs, shaders);
      assert unchanged@arrayDone(arrays.Values) && unchanged@arrayDone(buffers.Values);
    }

    method SyncUniformsAndDraw(session: bool, force: bool, buffers: B.Registry)
      requires session && Valid() && B.Filed(buffers) && proxy.Some?
      modifies `proxy, buffers.Values
      ensures proxy == Some(old(proxy).value.(
                uniforms := old(proxy).value.uniforms + U.Messages(currentUniforms.list, force),
                draw := D.SyncRemote(old(proxy).value.draw, currentDraw.State(), force, buffers.Keys)))
      ensures B.States(buffers) == B.SyncSome(old(B.States(buffers)), currentDraw.data.BufferSet(), force)
    {
      var log := currentUniforms.Sync(proxy.value.uniforms, force);
      proxy := Some(proxy.value.(uniforms := log));
      assert B.States(buffers) == old(B.States(buffers));
      var draw := currentDraw.Sync(proxy.value.draw, session, force, buffers);
      label synced:
      proxy := Some(proxy.value.(draw := draw));
      assert unchanged@synced(buffers.Values);
    }

    method SyncTextures(session: bool, force: bool, textures: T.Registry, samplers: S.Registry)
      requires session && Valid() && T.Filed(textures) && S.Filed(samplers) && proxy.Some?
      modifies `proxy, currentTextures, textures.Values, samplers.Values
      ensures currentTextures.State() == TB.SyncCurrent(old(currentTextures.State()), textures.Keys, samplers.Keys)
      ensures proxy == Some(old(proxy).value.(textures :=
                TB.SyncRemote(old(proxy).value.textures, old(currentTextures.State()), force, textures.Keys,
                    samplers.Keys)))
      ensures T.States(textures) == T.SyncSome(old(T.States(textures)), TB.TexturesOf(currentTextures.list), force)
      ensures S.States(samplers) == S.SyncSome(old(S.States(samplers)), TB.SamplersOf(currentTextures.list), force)
    {
      var bound := currentTextures.Sync(proxy.value.textures, session, force, textures, samplers);
      label synced:
      proxy := Some(proxy.value.(textures := bound));
      assert unchanged@synced(textures.Values) && unchanged@synced(samplers.Values)
        && unchanged@synced(currentTextures);
    }

    // Texture bindings, uniforms and draw call.
    method SyncLists(session: bool, force: bool, buffers: B.Registry, textures: T.Registry, samplers: S.Registry)
      requires session && Valid() && B.Filed(buffers) && T.Filed(textures) && S.Filed(samplers) && proxy.Some?
      modifies `proxy, currentTextures, buffers.Values, textures.Values, samplers.Values
      ensures currentTextures.State() == TB.SyncCurrent(old(currentTextures.State()), textures.Keys, samplers.Keys)
      ensures proxy == Some(old(proxy).value.(
                textures := TB.SyncRemote(old(proxy).value.textures, old(currentTextures.State()), force,
                    textures.Keys, samplers.Keys),
                uniforms := old(proxy).value.uniforms + U.Messages(currentUniforms.list, force),
                draw := D.SyncRemote(old(proxy).value.draw, currentDraw.State(), force, buffers.Keys)))
      ensures T.States(textures) == T.SyncSome(old(T.States(textures)), TB.TexturesOf(currentTextures.list), force)
      ensures S.States(samplers) == S.SyncSome(old(S.States(samplers)), TB.SamplersOf(currentTextures.list), force)
      ensures B.States(buffers) == B.SyncSome(old(B.States(buffers)), currentDraw.data.BufferSet(), force)
    {
      hide *;
      SyncTextures(session, force, textures, samplers);
      label texturesDone:
      assert B.States(buffers) == old(B.States(buffers));
      SyncUniformsAndDraw(session, force, buffers);
      assert unchanged@texturesDone(textures.Values) && unchanged@texturesDone(samplers.Values);
      assert unchanged@texturesDone(currentTextures);
    }

    // The same effects, told of the technique's two sides.
    method CommitSides(leaves: Leaves, shm: map<Id, Bytes>)
      requires Valid() && leaves.Filed()
      modifies pendingDraw, currentDraw, pendingUniforms, currentUniforms, pendingTextures, currentTextures
      modifies leaves.buffers.Values, leaves.textures.Values, leaves.samplers.Values, leaves.programs.Values
      modifies leaves.arrays.Values
      modifies `pendingProgramChanged, `currentProgramChanged, `currentProgram
      modifies `pendingArrayChanged, `currentArrayChanged, `currentArray
      ensures Pending() == old(State()).CommittedPending(leaves.Live())
      ensures Current() == old(State()).CommittedCurrent(leaves.Live())
      ensures P.States(leaves.programs) == P.CommitSome(old(P.States(leaves.programs)), Opt(Current().program))
      ensures A.States(leaves.arrays) == A.CommitSome(old(A.States(leaves.arrays)), Opt(Current().vertexArray))
      ensures B.States(leaves.buffers) ==
              B.CommitSome(old(B.States(leaves.buffers)),
                           A.PendingBuffers(old(A.States(leaves.arrays)), Current().vertexArray) +
                           D.CommitBuffers(old(Pending()).draw), shm)
      ensures T.States(leaves.textures) ==
              T.CommitSome(old(T.States(leaves.textures)), TB.TexturesOf(Current().textures.list), shm)
      ensures S.States(leaves.samplers) ==
              S.CommitSome(old(S.States(leaves.samplers)), TB.SamplersOf(Current().textures.list))
    {
      hide B.CommitSome, T.CommitSome, S.CommitSome, P.CommitSome, A.CommitSome;
      hide B.States, T.States, S.States, H.States, P.States, A.States;
      leaves.KindsApart();
      CommitTargets(leaves, shm);
    }

    method CommitReached(leaves: Leaves, shm: map<Id, Bytes>)
      requires Valid() && leaves.Filed()
      modifies Repr() - {this}, leaves.Objects()
      modifies `pendingProgramChanged, `currentProgramChanged, `currentProgram
      modifies `pendingArrayChanged, `currentArrayChanged, `currentArray
      ensures Pending() == old(State()).CommittedPending(leaves.Live())
      ensures Current() == old(State()).CommittedCurrent(leaves.Live())
      ensures leaves.State(shm) == CommitLeaves(old(leaves.State(shm)),
              CommitReach(old(leaves.State(shm)), old(State())))
    {
      hide CommitLeaves, CommitReach, B.States, T.States, S.States, H.States, P.States, A.States;
      hide B.CommitSome, T.CommitSome, S.CommitSome, P.CommitSome, A.CommitSome;
      ghost var g, t := leaves.State(shm), State();
      leaves.KindsApart();
      CommitSides(leaves, shm);
      assert H.States(leaves.shaders) == g.shaders;
      CommitAssembles(g, t, Current(), leaves.State(shm));
    }

    // The whole commit: this technique, and everything that it reaches.
    method Commit(leaves: Leaves, shm: map<Id, Bytes>)
      requires Valid() && leaves.Filed()
      modifies Repr(), leaves.Objects()
      ensures State() == old(State()).Commit(leaves.Live())
      ensures leaves.State(shm) == CommitLeaves(old(leaves.State(shm)),
              CommitReach(old(leaves.State(shm)), old(State())))
    {
      hide CommitLeaves, Leaves.State;
      ghost var g, t := leaves.State(shm), State();
      assert this !in leaves.Objects();
      committed := true;
      assert unchanged(leaves.Objects());
      assert leaves.State(shm) == g && State() == t.(committed := true);
      CommitReached(leaves, shm);
    }

    // The slots' part of a sync leaves the lists and their targets alone,
    method SyncSlotsOnly(session: bool, force: bool, leaves: Leaves)
      requires session && Valid() && leaves.Filed() && proxy.Some?
      modifies `proxy
      modifies leaves.arrays.Values, leaves.buffers.Values, leaves.programs.Values, leaves.shaders.Values
      ensures proxy == Some(old(proxy).value.(
                vertexArray :=
                  Q.Send(force || currentArrayChanged, currentArray, leaves.arrays.Keys, old(proxy).value.vertexArray),
                program :=
                  Q.Send(force || currentProgramChanged, currentProgram, leaves.programs.Keys,
                      old(proxy).value.program)))
      ensures currentTextures.State() == old(currentTextures.State())
      ensures currentUniforms.list == old(currentUniforms.list) && currentDraw.State() == old(currentDraw.State())
      ensures P.States(leaves.programs) ==
              P.SyncSome(old(P.States(leaves.programs)), Opt(currentProgram), force, leaves.shaders.Keys)
      ensures H.States(leaves.shaders) ==
              H.SyncSome(old(H.States(leaves.shaders)),
                         P.CurrentShaders(old(P.States(leaves.programs)), currentProgram, leaves.shaders.Keys))
      ensures A.States(leaves.arrays) ==
              A.SyncSome(old(A.States(leaves.arrays)), Opt(currentArray), force, leaves.buffers.Keys)
      ensures B.States(leaves.buffers) ==
              B.SyncSome(old(B.States(leaves.buffers)), A.CurrentBuffers(old(A.States(leaves.arrays)), currentArray),
                  force)
      ensures T.States(leaves.textures) == old(T.States(leaves.textures))
      ensures S.States(leaves.samplers) == old(S.States(leaves.samplers))
    {
      hide *;
      leaves.KindsApart();
      leaves.AllFiled();
      SyncSlots(session, force, leaves.arrays, leaves.buffers, leaves.programs, leaves.shaders);
    }

    // and the lists' part the slots' targets.
    method SyncListsOnly(session: bool, force: bool, leaves: Leaves)
      requires session && Valid() && leaves.Filed() && proxy.Some?
      modifies `proxy, currentTextures, leaves.buffers.Values, leaves.textures.Values, leaves.samplers.Values
      ensures currentTextures.State() ==
              TB.SyncCurrent(old(currentTextures.State()), leaves.textures.Keys, leaves.samplers.Keys)
      ensures proxy == Some(old(proxy).value.(
                textures := TB.SyncRemote(old(proxy).value.textures, old(currentTextures.State()), force,
                                          leaves.textures.Keys, leaves.samplers.Keys),
                uniforms := old(proxy).value.uniforms + U.Messages(currentUniforms.list, force),
                draw := D.SyncRemote(old(proxy).value.draw, currentDraw.State(), force, leaves.buffers.Keys)))
      ensures currentUniforms.list == old(currentUniforms.list) && currentDraw.State() == old(currentDraw.State())
      ensures T.States(leaves.textures) ==
              T.SyncSome(old(T.States(leaves.textures)), TB.TexturesOf(currentTextures.list), force)
      ensures S.States(leaves.samplers) ==
              S.SyncSome(old(S.States(leaves.samplers)), TB.SamplersOf(currentTextures.list), force)
      ensures B.States(leaves.buffers) ==
              B.SyncSome(old(B.States(leaves.buffers)), currentDraw.data.BufferSet(), force)
      ensures P.States(leaves.programs) == old(P.States(leaves.programs))
      ensures H.States(leaves.shaders) == old(H.States(leaves.shaders))
      ensures A.States(leaves.arrays) == old(A.States(leaves.arrays))
    {
      hide *;
      leaves.KindsApart();
      leaves.AllFiled();
      SyncLists(session, force, leaves.buffers, leaves.textures, leaves.samplers);
    }

    method SyncTargets(session: bool, force: bool, leaves: Leaves)
      requires session && Valid() && leaves.Filed() && proxy.Some?
      modifies `proxy, currentTextures
      modifies leaves.buffers.Values, leaves.textures.Values, leaves.samplers.Values, leaves.shaders.Values
      modifies leaves.programs.Values, leaves.arrays.Values
      ensures currentTextures.State() ==
              TB.SyncCurrent(old(currentTextures.State()), leaves.textures.Keys, leaves.samplers.Keys)
      ensures proxy.Some?
      ensures proxy.value.program ==
              Q.Send(force || currentProgramChanged, currentProgram, leaves.programs.Keys, old(proxy.value.program))
      ensures proxy.value.vertexArray ==
              Q.Send(force || currentArrayChanged, currentArray, leaves.arrays.Keys, old(proxy.value.vertexArray))
      ensures proxy.value.textures ==
              TB.SyncRemote(old(proxy.value.textures), old(currentTextures.State()), force,
                            leaves.textures.Keys, leaves.samplers.Keys)
      ensures proxy.value.uniforms == old(proxy.value.uniforms) + U.Messages(currentUniforms.list, force)
      ensures proxy.value.draw == D.SyncRemote(old(proxy.value.draw), currentDraw.State(), force, leaves.buffers.Keys)
      ensures P.States(leaves.programs) ==
              P.SyncSome(old(P.States(leaves.programs)), Opt(currentProgram), force, leaves.shaders.Keys)
      ensures H.States(leaves.shaders) ==
              H.SyncSome(old(H.States(leaves.shaders)),
                         P.CurrentShaders(old(P.States(leaves.programs)), currentProgram, leaves.shaders.Keys))
      ensures A.States(leaves.arrays) ==
              A.SyncSome(old(A.States(leaves.arrays)), Opt(currentArray), force, leaves.buffers.Keys)
      ensures B.States(leaves.buffers) ==
              B.SyncSome(old(B.States(leaves.buffers)),
                         A.CurrentBuffers(old(A.States(leaves.arrays)), currentArray) +
                         currentDraw.data.BufferSet(), force)
      ensures T.States(leaves.textures) ==
              T.SyncSome(old(T.States(leaves.textures)), TB.TexturesOf(currentTextures.list), force)
      ensures S.States(leaves.samplers) ==
              S.SyncSome(old(S.States(leaves.samplers)), TB.SamplersOf(currentTextures.list), force)
    {
      hide *;
      ghost var buffers, arrays := B.States(leaves.buffers), A.States(leaves.arrays);
      SyncSlotsOnly(session, force, leaves);
      SyncListsOnly(session, force, leaves);
      B.SyncSomeTwice(buffers, A.CurrentBuffers(arrays, currentArray), currentDraw.data.BufferSet(), force);
    }

    // When nothing but the copy has changed.
    twostate lemma OnlyProxy()
      requires unchanged(`committed) && unchanged(`pendingProgramChanged) && unchanged(`pendingProgram)
      requires unchanged(`pendingArrayChanged) && unchanged(`pendingArray)
      requires unchanged(`currentProgramChanged) && unchanged(`currentProgram)
      requires unchanged(`currentArrayChanged) && unchanged(`currentArray)
      requires unchanged(Repr() - {this})
      ensures State() == old(State()).(proxy := proxy)
    {
    }

    // When nothing but the copy and the current texture bindings have.
    twostate lemma OnlySynced()
      requires unchanged(`committed) && unchanged(`pendingProgramChanged) && unchanged(`pendingProgram)
      requires unchanged(`pendingArrayChanged) && unchanged(`pendingArray)
      requires unchanged(`currentProgramChanged) && unchanged(`currentProgram)
      requires unchanged(`currentArrayChanged) && unchanged(`currentArray)
      requires unchanged(pendingTextures) && unchanged(pendingDraw) && unchanged(pendingUniforms)
      requires unchanged(currentDraw) && unchanged(currentUniforms)
      ensures var t := old(State());
              State() == t.(current := t.current.(textures := currentTextures.State()), proxy := proxy)
    {
    }

    // The same effects, told of the technique as a whole,
    method SyncTold(session: bool, force: bool, leaves: Leaves)
      requires session && Valid() && leaves.Filed() && proxy.Some?
      modifies `proxy, currentTextures
      modifies leaves.buffers.Values, leaves.textures.Values, leaves.samplers.Values, leaves.shaders.Values
      modifies leaves.programs.Values, leaves.arrays.Values
      ensures State() == old(State()).Sync(force, leaves.Live())
      ensures P.States(leaves.programs) ==
              P.SyncSome(old(P.States(leaves.programs)), Opt(currentProgram), force, leaves.shaders.Keys)
      ensures H.States(leaves.shaders) ==
              H.SyncSome(old(H.States(leaves.shaders)),
                         P.CurrentShaders(old(P.States(leaves.programs)), currentProgram, leaves.shaders.Keys))
      ensures A.States(leaves.arrays) ==
              A.SyncSome(old(A.States(leaves.arrays)), Opt(currentArray), force, leaves.buffers.Keys)
      ensures B.States(leaves.buffers) ==
              B.SyncSome(old(B.States(leaves.buffers)),
                         A.CurrentBuffers(old(A.States(leaves.arrays)), currentArray) +
                         currentDraw.data.BufferSet(), force)
      ensures T.States(leaves.textures) ==
              T.SyncSome(old(T.States(leaves.textures)), TB.TexturesOf(currentTextures.list), force)
      ensures S.States(leaves.samplers) ==
              S.SyncSome(old(S.States(leaves.samplers)), TB.SamplersOf(currentTextures.list), force)
    {
      hide B.SyncSome, T.SyncSome, S.SyncSome, H.SyncSome, P.SyncSome, A.SyncSome;
      hide B.States, T.States, S.States, H.States, P.States, A.States, P.CurrentShaders, A.CurrentBuffers;
      hide Q.Technique.Sync, Q.Send, TB.SyncCurrent, TB.SyncRemote, D.SyncRemote, U.Messages, Leaves.Filed;
      ghost var t := State();
      leaves.KindsApart();
      SyncTargets(session, force, leaves);
      SyncedWhole(t, force, leaves.Live(), currentTextures.State(), proxy.value);
      OnlySynced();
    }

    // and of what it shows.
    method SyncSides(session: bool, force: bool, leaves: Leaves)
      requires session && Valid() && leaves.Filed() && proxy.Some?
      modifies `proxy, currentTextures
      modifies leaves.buffers.Values, leaves.textures.Values, leaves.samplers.Values, leaves.shaders.Values
      modifies leaves.programs.Values, leaves.arrays.Values
      ensures State() == old(State()).Sync(force, leaves.Live())
      ensures P.States(leaves.programs) ==
              P.SyncSome(old(P.States(leaves.programs)), Opt(Current().program), force, leaves.shaders.Keys)
      ensures H.States(leaves.shaders) ==
              H.SyncSome(old(H.States(leaves.shaders)),
                         P.CurrentShaders(old(P.States(leaves.programs)), Current().program, leaves.shaders.Keys))
      ensures A.States(leaves.arrays) ==
              A.SyncSome(old(A.States(leaves.arrays)), Opt(Current().vertexArray), force, leaves.buffers.Keys)
      ensures B.States(leaves.buffers) ==
              B.SyncSome(old(B.States(leaves.buffers)),
                         A.CurrentBuffers(old(A.States(leaves.arrays)), Current().vertexArray) +
                         Current().draw.data.BufferSet(), force)
      ensures T.States(leaves.textures) ==
              T.SyncSome(old(T.States(leaves.textures)), TB.TexturesOf(Current().textures.list), force)
      ensures S.States(leaves.samplers) ==
              S.SyncSome(old(S.States(leaves.samplers)), TB.SamplersOf(Current().textures.list), force)
    {
      hide B.SyncSome, T.SyncSome, S.SyncSome, H.SyncSome, P.SyncSome, A.SyncSome, Leaves.Live, Leaves.Filed;
      hide B.States, T.States, S.States, H.States, P.States, A.States, State, Q.Technique.Sync;
      SyncTold(session, force, leaves);
    }

    method SyncReached(session: bool, force: bool, leaves: Leaves, ghost shm: map<Id, Bytes>)
      requires session && Valid() && leaves.Filed() && proxy.Some?
      modifies `proxy, currentTextures, leaves.Objects()
      ensures State() == old(State()).Sync(force, leaves.Live())
      ensures leaves.State(shm) ==
              SyncLeaves(old(leaves.State(shm)), SyncReach(old(leaves.State(shm)), old(State())), force)
    {
      hide SyncLeaves, SyncReach, B.States, T.States, S.States, H.States, P.States, A.States;
      hide B.SyncSome, T.SyncSome, S.SyncSome, H.SyncSome, P.SyncSome, A.SyncSome;
      ghost var g, t := leaves.State(shm), State();
      SyncSides(session, force, leaves);
      assert Current() == t.Sync(force, g.Live()).current;
      SyncAssembles(g, t, force, Current().textures.list, leaves.State(shm));
    }

    // A copy is made through the channel of the session, on the unit's copy.
    method EnsureCopy(session: bool, unitProxy: bool)
      requires session && unitProxy
      modifies `proxy
      ensures proxy == Some(old(proxy).GetOr(Q.NEW_COPY)) && State() == old(State()).(proxy := proxy)
    {
      if proxy.None? {
        proxy := Some(Q.NEW_COPY);
      }
    }

    lemma NoLeaf(leaves: Leaves)
      ensures this !in leaves.Objects()
    {
    }

    // The whole sync; a new copy is made on the copy of the unit.
    method Sync(session: bool, unitProxy: bool, force: bool, leaves: Leaves, ghost shm: map<Id, Bytes>)
      requires session && unitProxy && Valid() && leaves.Filed()
      modifies Repr(), leaves.Objects()
      ensures State() == old(State()).Sync(force, leaves.Live())
      ensures leaves.State(shm) ==
              SyncLeaves(old(leaves.State(shm)), SyncReach(old(leaves.State(shm)), old(State())), force)
    {
      hide SyncLeaves, SyncReach, Leaves.State, Pending, Current, Q.Technique.SyncedCopy;
      ghost var g, t := leaves.State(shm), State();
      NoLeaf(leaves);
      EnsureCopy(session, unitProxy);
      assert unchanged(leaves.Objects());
      assert leaves.State(shm) == g;
      CopyMade(g, t, proxy, force, leaves.Live());
      SyncReached(session, force, leaves, shm);
    }
  }
}
