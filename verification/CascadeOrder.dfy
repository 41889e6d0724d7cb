// A cascade visits techniques one by one and shared objects several times;
// the outcome is that of visiting everything once, in whatever order.
module CascadeOrder {
  import opened Common
  import opened Scenes
  import B = Buffers
  import T = Textures
  import S = Samplers
  import H = Shaders
  import P = Programs
  import A = VertexArrays
  import Q = Techniques

  ghost function Union(r: Reach, q: Reach): Reach {
    Reach(r.buffers + q.buffers, r.textures + q.textures, r.samplers + q.samplers, r.shaders + q.shaders,
          r.programs + q.programs, r.arrays + q.arrays)
  }

  lemma CommitLeavesTwice(g: Gl, r: Reach, q: Reach)
    ensures CommitLeaves(CommitLeaves(g, r), q) == CommitLeaves(g, Union(r, q))
  {
    B.CommitSomeTwice(g.buffers, r.buffers, q.buffers, g.shm);
    T.CommitSomeTwice(g.textures, r.textures, q.textures, g.shm);
    S.CommitSomeTwice(g.samplers, r.samplers, q.samplers);
    P.CommitSomeTwice(g.programs, r.programs, q.programs);
    A.CommitSomeTwice(g.arrays, r.arrays, q.arrays);
  }

  lemma SyncLeavesTwice(g: Gl, r: Reach, q: Reach, force: bool)
    ensures SyncLeaves(SyncLeaves(g, r, force), q, force) == SyncLeaves(g, Union(r, q), force)
  {
    assert SyncLeaves(g, r, force).buffers.Keys == g.buffers.Keys;
    assert SyncLeaves(g, r, force).shaders.Keys == g.shaders.Keys;
    B.SyncSomeTwice(g.buffers, r.buffers, q.buffers, force);
    T.SyncSomeTwice(g.textures, r.textures, q.textures, force);
    S.SyncSomeTwice(g.samplers, r.samplers, q.samplers, force);
    H.SyncSomeTwice(g.shaders, r.shaders, q.shaders);
    P.SyncSomeTwice(g.programs, r.programs, q.programs, force, g.shaders.Keys);
    A.SyncSomeTwice(g.arrays, r.arrays, q.arrays, force, g.buffers.Keys);
  }

  // Another technique's commit or sync does not change what a technique reaches.
  lemma CommitReachStable(g: Gl, r: Reach, ts: map<Id, Q.Technique>, t: Q.Technique)
    ensures CommitReach(CommitLeaves(g, r).(techniques := ts), t) == CommitReach(g, t)
  {
    var g' := CommitLeaves(g, r).(techniques := ts);
    assert g'.Live() == g.Live();
    var a := t.CommittedCurrent(g.Live()).vertexArray;
    assert A.PendingBuffers(g'.arrays, a) == A.PendingBuffers(g.arrays, a);
  }

  lemma SyncReachStable(g: Gl, r: Reach, force: bool, ts: map<Id, Q.Technique>, t: Q.Technique)
    ensures SyncReach(SyncLeaves(g, r, force).(techniques := ts), t) == SyncReach(g, t)
  {
    var g' := SyncLeaves(g, r, force).(techniques := ts);
    assert g'.textures.Keys == g.textures.Keys && g'.samplers.Keys == g.samplers.Keys
      && g'.shaders.Keys == g.shaders.Keys;
    var p := t.current.program;
    if p.Some? && p.value in g.programs {
      P.KeepLiveElements(g.programs[p.value].current.shaders, g.shaders.Keys);
    }
    assert A.CurrentBuffers(g'.arrays, t.current.vertexArray) == A.CurrentBuffers(g.arrays, t.current.vertexArray);
  }

  lemma TogetherOne(t: Id, r: Reach)
    ensures Together(map[t := r]) == r
  {
    var m := map[t := r];
    assert t in m && m[t] == r;
  }

  lemma TogetherSplit(m: map<Id, Reach>, n: map<Id, Reach>)
    requires m.Keys !! n.Keys
    ensures Together(m + n) == Union(Together(m), Together(n))
  {
    hide Together;
    assert forall t :: t in m ==> (m + n)[t] == m[t];
    assert forall t :: t in n ==> (m + n)[t] == n[t];
    DataSplit(m, n, m + n);
    ProgramSplit(m, n, m + n);
  }

  lemma DataSplit(m: map<Id, Reach>, n: map<Id, Reach>, all: map<Id, Reach>)
    requires all.Keys == m.Keys + n.Keys
    requires (forall t :: t in m ==> all[t] == m[t]) && (forall t :: t in n ==> all[t] == n[t])
    ensures Together(all).buffers == Together(m).buffers + Together(n).buffers
    ensures Together(all).textures == Together(m).textures + Together(n).textures
    ensures Together(all).samplers == Together(m).samplers + Together(n).samplers
  {
    assert forall t :: t in all <==> t in m || t in n;
  }

  lemma ProgramSplit(m: map<Id, Reach>, n: map<Id, Reach>, all: map<Id, Reach>)
    requires all.Keys == m.Keys + n.Keys
    requires (forall t :: t in m ==> all[t] == m[t]) && (forall t :: t in n ==> all[t] == n[t])
    ensures Together(all).shaders == Together(m).shaders + Together(n).shaders
    ensures Together(all).programs == Together(m).programs + Together(n).programs
    ensures Together(all).arrays == Together(m).arrays + Together(n).arrays
  {
    assert forall t :: t in all <==> t in m || t in n;
  }

  lemma CommitReachesSplit(g: Gl, g': Gl, r: Reach, a: set<Id>, b: set<Id>)
    requires a !! b
    requires g' == CommitLeaves(g, r).(techniques := g'.techniques) && g'.techniques.Keys == g.techniques.Keys
    requires forall t :: t in b && t in g.techniques ==> g'.techniques[t] == g.techniques[t]
    ensures CommitReaches(g, a + b) == CommitReaches(g, a) + CommitReaches(g', b)
    ensures CommitReaches(g, a).Keys !! CommitReaches(g', b).Keys
  {
    hide CommitReach, CommitLeaves;
    forall t | t in b && t in g.techniques
      ensures CommitReach(g', g'.techniques[t]) == CommitReach(g, g.techniques[t])
    {
      CommitReachStable(g, r, g'.techniques, g.techniques[t]);
    }
  }

  lemma CommitReachSplit(g: Gl, g': Gl, r: Reach, a: set<Id>, b: set<Id>)
    requires a !! b
    requires g' == CommitLeaves(g, r).(techniques := g'.techniques) && g'.techniques.Keys == g.techniques.Keys
    requires forall t :: t in b && t in g.techniques ==> g'.techniques[t] == g.techniques[t]
    ensures CommitReachAll(g, a + b) == Union(CommitReachAll(g, a), CommitReachAll(g', b))
  {
    hide CommitReach, CommitReaches, CommitLeaves, Together;
    CommitReachesSplit(g, g', r, a, b);
    TogetherSplit(CommitReaches(g, a), CommitReaches(g', b));
  }

  lemma SyncReachesSplit(g: Gl, g': Gl, r: Reach, force: bool, a: set<Id>, b: set<Id>)
    requires a !! b
    requires g' == SyncLeaves(g, r, force).(techniques := g'.techniques) && g'.techniques.Keys == g.techniques.Keys
    requires forall t :: t in b && t in g.techniques ==> g'.techniques[t] == g.techniques[t]
    ensures SyncReaches(g, a + b) == SyncReaches(g, a) + SyncReaches(g', b)
    ensures SyncReaches(g, a).Keys !! SyncReaches(g', b).Keys
  {
    hide SyncReach, SyncLeaves;
    forall t | t in b && t in g.techniques
      ensures SyncReach(g', g'.techniques[t]) == SyncReach(g, g.techniques[t])
    {
      SyncReachStable(g, r, force, g'.techniques, g.techniques[t]);
    }
  }

  lemma SyncReachSplit(g: Gl, g': Gl, r: Reach, force: bool, a: set<Id>, b: set<Id>)
    requires a !! b
    requires g' == SyncLeaves(g, r, force).(techniques := g'.techniques) && g'.techniques.Keys == g.techniques.Keys
    requires forall t :: t in b && t in g.techniques ==> g'.techniques[t] == g.techniques[t]
    ensures SyncReachAll(g, a + b) == Union(SyncReachAll(g, a), SyncReachAll(g', b))
  {
    hide SyncReach, SyncReaches, SyncLeaves, Together;
    SyncReachesSplit(g, g', r, force, a, b);
    TogetherSplit(SyncReaches(g, a), SyncReaches(g', b));
  }

  // Committing some techniques and then others is committing them all.
  lemma CommitInAnyOrder(g: Gl, a: set<Id>, b: set<Id>)
    requires a !! b
    ensures CommitTechniques(CommitTechniques(g, a), b) == CommitTechniques(g, a + b)
  {
    hide CommitReach, CommitReaches, Together;
    var r := CommitReachAll(g, a);
    var g' := CommitTechniques(g, a);
    assert g'.Live() == g.Live();
    CommitReachSplit(g, g', r, a, b);
    CommitLeavesTwice(g, r, CommitReachAll(g', b));
  }

  // Likewise for a sync.
  lemma SyncInAnyOrder(g: Gl, a: set<Id>, b: set<Id>, force: bool)
    requires a !! b
    ensures SyncTechniques(SyncTechniques(g, a, force), b, force) == SyncTechniques(g, a + b, force)
  {
    hide SyncReach, SyncReaches, Together;
    var r := SyncReachAll(g, a);
    var g' := SyncTechniques(g, a, force);
    assert g'.Live() == g.Live();
    SyncReachSplit(g, g', r, force, a, b);
    SyncLeavesTwice(g, r, SyncReachAll(g', b), force);
  }

  // ---- objects ------------------------------------------------------------------

  lemma SentOf(s: Scene, s': Scene, a: set<Id>, b: set<Id>, force: bool)
    requires a !! b && s' == SyncObjects(s, a, force)
    ensures WithApp(s', b) == WithApp(s, b) && WithApp(s, a + b) == WithApp(s, a) + WithApp(s, b)
    ensures CommittedOf(s', WithApp(s, b)) == CommittedOf(s, WithApp(s, b))
    ensures CommittedOf(s, WithApp(s, a)) !! CommittedOf(s, WithApp(s, b))
    ensures CommittedOf(s, WithApp(s, a + b)) == CommittedOf(s, WithApp(s, a)) + CommittedOf(s, WithApp(s, b))
  {
    hide SyncReachAll, SyncLeaves;
    assert WithApp(s', b) == WithApp(s, b) && WithApp(s, a + b) == WithApp(s, a) + WithApp(s, b);
  }

  lemma OwnersInAnyOrder(s: Scene, a: set<Id>, b: set<Id>)
    ensures SyncUnits(SyncUnits(s.units, a), b) == SyncUnits(s.units, a + b)
    ensures SyncOwners(SyncOwners(s.objects, a), b) == SyncOwners(s.objects, a + b)
  {
  }

  // Sending some objects and then others is sending them all.
  lemma ObjectsInAnyOrder(s: Scene, a: set<Id>, b: set<Id>, force: bool)
    requires a !! b
    ensures SyncObjects(SyncObjects(s, a, force), b, force) == SyncObjects(s, a + b, force)
  {
    hide SyncTechniques, CommittedOf, WithApp, SyncUnits, SyncOwners;
    var s' := SyncObjects(s, a, force);
    SentOf(s, s', a, b, force);
    SyncInAnyOrder(s.gl, CommittedOf(s, WithApp(s, a)), CommittedOf(s, WithApp(s, b)), force);
    OwnersInAnyOrder(s, WithApp(s, a), WithApp(s, b));
  }
}
