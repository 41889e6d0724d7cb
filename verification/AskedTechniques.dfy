// A technique's current state is what it was asked for before its object was
// last committed; its pending state, what it has been asked for since.
module AskedTechniques {
  import opened Common
  import opened Scenes
  import opened SceneInvariant
  import opened SceneCascade
  import opened Asked
  import opened AskedLives
  import U = Uniforms
  import D = DrawCalls
  import TB = TextureBindings
  import Q = Techniques

  // `now` is all that was asked for, and `before` what was asked for before the
  // last commit, which has been taken up; of each name the last uniform counts.
  ghost predicate Obeys(q: Q.Technique, now: Wish, before: Wish, newDraw: Option<D.Draw>) {
    && q.current.program == before.program && q.pending.program == now.program
    && (!q.pending.programChanged ==> now.program == before.program)
    && q.current.vertexArray == before.vertexArray && q.pending.vertexArray == now.vertexArray
    && (!q.pending.arrayChanged ==> now.vertexArray == before.vertexArray)
    && q.current.draw.data == before.draw && q.pending.draw.changed == newDraw.Some?
    && (if newDraw.Some? then now.draw == q.pending.draw.data == newDraw.value else now.draw == before.draw)
    && U.Unflag(q.current.uniforms) == U.Latest(before.uniforms)
    && before.uniforms + q.pending.uniforms == now.uniforms
  }

  lemma RequestObeyed(
    q: Q.Technique, r: Q.Request, now: Wish, before: Wish, newDraw: Option<D.Draw>)
    requires Obeys(q, now, before, newDraw)
    ensures Obeys(q.Requested(r), now.With(r), before, if r.SetDraw? then Some(r.draw) else newDraw)
  {
    hide U.Unflag, U.Latest;
    if r.NewUniform? {
      var u := [r.uniform.Flagged(false)];
      assert before.uniforms + (q.pending.uniforms + u) == before.uniforms + q.pending.uniforms + u;
    }
  }

  lemma CommitObeyed(q: Q.Technique, live: Q.Live, now: Wish, before: Wish, newDraw: Option<D.Draw>)
    requires Obeys(q, now, before, newDraw)
    ensures Obeys(q.Commit(live), now, now, None)
  {
    hide U.Unflag, U.Latest, U.CommitList;
    U.CommitLeavesLatest(q.current.uniforms, before.uniforms, q.pending.uniforms);
    assert now.uniforms + [] == now.uniforms;
  }

  lemma SentObeys(
    q: Q.Technique, q': Q.Technique, live: Q.Live, now: Wish, before: Wish, newDraw: Option<D.Draw>)
    requires Obeys(q, now, before, newDraw) && SentOnly(q, q', live)
    ensures Obeys(q', now, before, newDraw) && q'.committed == q.committed
  {
  }

  lemma NewObeys(u: Id)
    ensures Obeys(Q.NewTechnique(u), NO_WISH, NO_WISH, None)
  {
    assert U.Unflag([]) == [] == U.Latest([]);
  }

  // ---- bindings ----------------------------------------------------------------

  // Of the bindings whose two targets live, the list has the last of each point.
  ghost predicate Lists(list: seq<TB.Binding>, bindings: map<nat, TB.Binding>, live: Q.Live) {
    forall b: TB.Binding :: b.Live(live.textures, live.samplers) ==>
      (b in list <==> b.binding in bindings && bindings[b.binding] == b)
  }

  ghost predicate BindsAs(q: Q.Technique, now: Wish, before: Wish, live: Q.Live) {
    && Lists(q.pending.textures.list, now.bindings, live) && Lists(q.current.textures.list, before.bindings, live)
    && (!q.pending.textures.changed ==> Lists(q.current.textures.list, now.bindings, live))
  }

  lemma RequestBinds(q: Q.Technique, r: Q.Request, now: Wish, before: Wish, live: Q.Live)
    requires BindsAs(q, now, before, live)
    ensures BindsAs(q.Requested(r), now.With(r), before, live)
  {
    if r.BindTexture? {
      TB.RemovePointElements(q.pending.textures.list, r.binding.binding);
    }
  }

  lemma CommitBinds(q: Q.Technique, live: Q.Live, now: Wish, before: Wish)
    requires BindsAs(q, now, before, live)
    ensures BindsAs(q.Commit(live), now, now, live)
    ensures forall b :: b in q.Commit(live).current.textures.list ==> b.Live(live.textures, live.samplers)
  {
    TB.KeepLiveElements(q.pending.textures.list, live.textures, live.samplers);
    TB.KeepLiveElements(q.current.textures.list, live.textures, live.samplers);
  }

  lemma SentBinds(q: Q.Technique, q': Q.Technique, live: Q.Live, now: Wish, before: Wish)
    requires BindsAs(q, now, before, live) && SentOnly(q, q', live)
    ensures BindsAs(q', now, before, live)
  {
  }

  // What is bound has been there before.
  predicate WishBelow(w: Wish, n: Id) {
    && (w.program.Some? ==> w.program.value < n) && (w.vertexArray.Some? ==> w.vertexArray.value < n)
    && forall p :: p in w.bindings ==>
      w.bindings[p].binding == p && w.bindings[p].texture < n && w.bindings[p].sampler < n
  }

  lemma FewerBinds(q: Q.Technique, now: Wish, before: Wish, live: Q.Live, later: Q.Live)
    requires BindsAs(q, now, before, live)
    requires later.textures <= live.textures && later.samplers <= live.samplers
    ensures BindsAs(q, now, before, later)
  {
  }

  // A new object is not bound to anything.
  lemma OneMoreBinds(q: Q.Technique, now: Wish, before: Wish, live: Q.Live, later: Q.Live, n: Id)
    requires BindsAs(q, now, before, live) && WishBelow(now, n) && WishBelow(before, n)
    requires BoundBelow(q.pending, n) && BoundBelow(q.current, n)
    requires later.textures <= live.textures + {n} && later.samplers <= live.samplers + {n}
    ensures BindsAs(q, now, before, later)
  {
  }

  lemma NewBinds(u: Id, live: Q.Live)
    ensures BindsAs(Q.NewTechnique(u), NO_WISH, NO_WISH, live)
  {
  }

  // ---- what was asked of ids not yet given --------------------------------------

  lemma WithBelow(w: Wish, r: Q.Request, live: Q.Live, n: Id)
    requires WishBelow(w, n) && r.Allowed(live)
    requires Below(live.textures, n) && Below(live.samplers, n) && Below(live.programs, n) && Below(live.arrays, n)
    ensures WishBelow(w.With(r), n)
  {
  }

  lemma LiveBelow(s: Scene)
    requires Inv(s)
    ensures var live := s.gl.Live();
            && Below(live.textures, s.next) && Below(live.samplers, s.next) && Below(live.programs, s.next)
            && Below(live.arrays, s.next) && Below(s.gl.techniques.Keys, s.next)
  {
    hide Sound, Shown, Hierarchy, Tree;
  }

  lemma AllowedBelow(s: Scene, e: Event, w: Wish)
    requires Inv(s) && Allowed(s, e) && e.OnTechnique? && WishBelow(w, s.next)
    ensures e.id < s.next && WishBelow(w.With(e.techniqueRequest), s.next)
  {
    hide Inv, Wish.With, WishBelow;
    LiveBelow(s);
    WithBelow(w, e.techniqueRequest, s.gl.Live(), s.next);
  }

  lemma {:induction false} WishesBelow(es: seq<Event>, t: Id)
    requires Possible(es)
    ensures WishBelow(WishOf(es, t), Given(es))
    ensures Given(es) <= t ==> WishOf(es, t) == NO_WISH && NewDraw(es, t) == None
  {
    hide WishBelow, Inv, Allowed, Step, CommitsTechnique;
    if es == [] {
      NoWishBelow(0);
    } else {
      var init, e := es[..|es| - 1], es[|es| - 1];
      WishesBelow(init, t);
      RunTold(init);
      RunKeeps(init);
      if e.OnTechnique? {
        AllowedBelow(Run(init), e, WishOf(init, t));
      }
      BelowLater(WishOf(es, t), Given(init), Given(es));
    }
  }

  lemma NoWishBelow(n: Id)
    ensures WishBelow(NO_WISH, n)
  {
  }

  lemma BelowLater(w: Wish, n: Id, m: Id)
    requires n <= m
    ensures WishBelow(w, n) ==> WishBelow(w, m)
  {
  }

  // ---- commits ------------------------------------------------------------------

  lemma CommitsIff(es: seq<Event>, e: Event, t: Id)
    requires Possible(es) && (e.CommitRequest? || e.MoveApp?)
    ensures CommitsTechnique(es, e, t) <==> t in TechniquesOf(Run(es), {e.id})
  {
    hide Inv, Told, CommitsTechnique, TechniquesOf;
    RunTold(es);
    RunKeeps(es);
    InvIsStructured(Run(es));
    CommitsAsTold(es, Run(es), e, t);
  }

  lemma CommitsAsTold(es: seq<Event>, s: Scene, e: Event, t: Id)
    requires Told(es, s) && Structured(s) && (e.CommitRequest? || e.MoveApp?)
    ensures CommitsTechnique(es, e, t) <==> t in TechniquesOf(s, {e.id})
  {
    hide Is, MadeBy;
    assert t in Keys(s, Technique) <==> Is(es, Technique, t);
    if t in s.gl.techniques {
      OwnerAsTold(es, s, t);
    }
  }

  lemma OwnerAsTold(es: seq<Event>, s: Scene, t: Id)
    requires Told(es, s) && Structured(s) && t in s.gl.techniques
    ensures s.gl.techniques[t].unit in s.units && OwnerOf(es, t) == Some(s.units[s.gl.techniques[t].unit].owner)
  {
    hide Is, MadeBy, UnitOf, ObjectOf, Keys;
  }

  lemma PassedToItself(es: seq<Event>, e: Event, t: Id)
    ensures Reaches(es, e, OfTechnique(t)) <==> CommitsTechnique(es, e, t)
  {
  }

  lemma {:induction false} NotYetReached(es: seq<Event>, t: Id)
    requires Possible(es) && Given(es) <= t
    ensures UpTo(es, OfTechnique(t)) == []
  {
    hide Reaches, Is, Inv, Allowed, Step;
    if es != [] {
      var init, e := es[..|es| - 1], es[|es| - 1];
      NotYetReached(init, t);
      PassedToItself(init, e, t);
      RunTold(init);
      RunKeeps(init);
      NotBelow(init, Run(init), t);
    }
  }

  lemma NotBelow(es: seq<Event>, s: Scene, t: Id)
    requires Told(es, s) && Inv(s) && Given(es) <= t
    ensures !Is(es, Technique, t)
  {
    hide Is, Sound, Shown, Hierarchy, Tree;
    assert t in Keys(s, Technique) <==> Is(es, Technique, t);
  }

  // ---- every run ----------------------------------------------------------------

  // The technique is committed, and is what was asked for by then, in full.
  ghost predicate Heeded(es: seq<Event>, s: Scene, t: Id)
    requires t in s.gl.techniques
  {
    var q, now, before := s.gl.techniques[t], WishOf(es, t), WishOf(UpTo(es, OfTechnique(t)), t);
    && Obeys(q, now, before, NewDraw(es, t)) && BindsAs(q, now, before, s.gl.Live())
    && (q.committed <==> UpTo(es, OfTechnique(t)) != [])
  }

  lemma HeededSame(es: seq<Event>, t: Id)
    requires es != []
    ensures var init, e := es[..|es| - 1], es[|es| - 1];
            && WishOf(es, t) == (if e.OnTechnique? && e.id == t then WishOf(init, t).With(e.techniqueRequest)
                                 else WishOf(init, t))
            && UpTo(es, OfTechnique(t)) == (if CommitsTechnique(init, e, t) then init else UpTo(init, OfTechnique(t)))
            && NewDraw(es, t) == (if e.OnTechnique? && e.id == t && e.techniqueRequest.SetDraw? then
                                    Some(e.techniqueRequest.draw)
                                  else if CommitsTechnique(init, e, t) then None else NewDraw(init, t))
  {
    PassedToItself(es[..|es| - 1], es[|es| - 1], t);
  }

  // What the technique is once the step has asked or committed, and before it
  // is sent.
  lemma HeededIn(es: seq<Event>, t: Id)
    requires es != [] && Possible(es) && t in Run(es[..|es| - 1]).gl.techniques
    requires Heeded(es[..|es| - 1], Run(es[..|es| - 1]), t)
    ensures var s, e := Run(es[..|es| - 1]), es[|es| - 1];
            var q, now, before := TechniqueIn(s, e, t), WishOf(es, t), WishOf(UpTo(es, OfTechnique(t)), t);
            && Obeys(q, now, before, NewDraw(es, t)) && BindsAs(q, now, before, s.gl.Live())
            && (q.committed <==> UpTo(es, OfTechnique(t)) != [])
  {
    hide Obeys, BindsAs, Allowed, Step, Q.Technique.Requested, CommitsTechnique, TechniquesOf;
    var init, e := es[..|es| - 1], es[|es| - 1];
    var s := Run(init);
    var q, now, before, draw := s.gl.techniques[t], WishOf(init, t), WishOf(UpTo(init, OfTechnique(t)), t),
                                NewDraw(init, t);
    HeededSame(es, t);
    NoCommit(init, e, t);
    if e.OnTechnique? && e.id == t {
      RequestObeyed(q, e.techniqueRequest, now, before, draw);
      RequestBinds(q, e.techniqueRequest, now, before, s.gl.Live());
      RequestCommitsNothing(q, e.techniqueRequest);
    } else if e.CommitRequest? || e.MoveApp? {
      CommitsIff(init, e, t);
      CommitObeyed(q, s.gl.Live(), now, before, draw);
      CommitBinds(q, s.gl.Live(), now, before);
      RunIsLong(init, t);
    }
  }

  lemma NoCommit(es: seq<Event>, e: Event, t: Id)
    ensures CommitsTechnique(es, e, t) ==> e.CommitRequest? || e.MoveApp?
  {
  }

  lemma RequestCommitsNothing(q: Q.Technique, r: Q.Request)
    ensures q.Requested(r).committed == q.committed
  {
  }

  lemma RunIsLong(es: seq<Event>, t: Id)
    requires Possible(es) && t in Run(es).gl.techniques
    ensures es != []
  {
  }

  lemma {:induction false} UpToIsBefore(es: seq<Event>, x: Target)
    requires Possible(es)
    ensures Possible(UpTo(es, x)) && Given(UpTo(es, x)) <= Given(es)
    ensures UpTo(es, x) != [] ==> |UpTo(es, x)| < |es|
  {
    hide Reaches, Allowed;
    if es != [] {
      UpToIsBefore(es[..|es| - 1], x);
    }
  }

  lemma CreationSparesTechniques(s: Scene, e: Event, t: Id)
    requires Inv(s) && Allowed(s, e) && e.Create? && t in s.gl.techniques
    ensures t in Step(s, e).gl.techniques && Step(s, e).gl.techniques[t] == s.gl.techniques[t]
  {
    hide Inv, Allowed, Step, Made, Keys;
    NoneIsNext(s);
    QuietGraphics(s, e);
    MadeKeepsTechnique(s.gl, s.next, e.creation, t);
  }

  lemma MadeKeepsTechnique(g: Gl, n: Id, c: Creation, t: Id)
    requires n !in g.techniques && t in g.techniques
    ensures t in Made(g, n, c).techniques && Made(g, n, c).techniques[t] == g.techniques[t]
  {
  }

  lemma BoundIsBelow(s: Scene, t: Id)
    requires Inv(s) && t in s.gl.techniques
    ensures BoundBelow(s.gl.techniques[t].pending, s.next) && BoundBelow(s.gl.techniques[t].current, s.next)
  {
    hide Sound, Shown, Hierarchy, Tree, BoundBelow;
  }

  lemma LiveAfter(s: Scene, e: Event)
    requires Inv(s) && Allowed(s, e)
    ensures var live, later := s.gl.Live(), Step(s, e).gl.Live();
            && later.textures <= live.textures + (if e.Create? then {s.next} else {})
            && later.samplers <= live.samplers + (if e.Create? then {s.next} else {})
  {
    hide Inv, Allowed, Step, Ended;
    KeysAfter(s, e, Texture);
    KeysAfter(s, e, Sampler);
  }

  lemma BindsAfterCreation(es: seq<Event>, t: Id)
    requires es != [] && Possible(es) && es[|es| - 1].Create?
    requires t in Run(es[..|es| - 1]).gl.techniques && t in Run(es).gl.techniques
    requires BindsAs(Run(es[..|es| - 1]).gl.techniques[t], WishOf(es, t), WishOf(UpTo(es, OfTechnique(t)), t),
                     Run(es[..|es| - 1]).gl.Live())
    ensures BindsAs(Run(es).gl.techniques[t], WishOf(es, t), WishOf(UpTo(es, OfTechnique(t)), t), Run(es).gl.Live())
  {
    hide BindsAs, BoundBelow, Allowed, Step, Inv, Told, WishBelow, Reaches;
    var init, e := es[..|es| - 1], es[|es| - 1];
    var s := Run(init);
    RunKeeps(init);
    RunTold(init);
    GivenIsNext(init, s);
    CreationSparesTechniques(s, e, t);
    BoundIsBelow(s, t);
    LiveAfter(s, e);
    WishesBelow(init, t);
    PassedToItself(init, e, t);
    NoCommit(init, e, t);
    var up := UpTo(init, OfTechnique(t));
    UpToIsBefore(init, OfTechnique(t));
    WishesBelow(up, t);
    BelowLater(WishOf(up, t), Given(up), Given(init));
    OneMoreBinds(s.gl.techniques[t], WishOf(init, t), WishOf(up, t), s.gl.Live(), Run(es).gl.Live(), s.next);
  }

  lemma GivenIsNext(es: seq<Event>, s: Scene)
    requires Told(es, s)
    ensures s.next == Given(es)
  {
  }

  lemma HeededOnce(es: seq<Event>, t: Id)
    requires es != [] && Possible(es) && t in Run(es).gl.techniques && t in Run(es[..|es| - 1]).gl.techniques
    requires Heeded(es[..|es| - 1], Run(es[..|es| - 1]), t)
    ensures Heeded(es, Run(es), t)
  {
    hide Obeys, BindsAs, SentOnly, Allowed, Step, Inv, CommitsTechnique, Reaches, TechniquesOf;
    hide Q.Technique.Requested, Q.Technique.Commit;
    var init, e := es[..|es| - 1], es[|es| - 1];
    var s, s' := Run(init), Run(es);
    var now, before := WishOf(es, t), WishOf(UpTo(es, OfTechnique(t)), t);
    RunKeeps(init);
    TechniqueAfter(s, e, t);
    HeededIn(es, t);
    var q, q' := TechniqueIn(s, e, t), s'.gl.techniques[t];
    SentObeys(q, q', s.gl.Live(), now, before, NewDraw(es, t));
    LiveAfter(s, e);
    if e.Create? {
      BindsAfterCreation(es, t);
    } else {
      SentBinds(q, q', s.gl.Live(), now, before);
      FewerBinds(q', now, before, s.gl.Live(), s'.gl.Live());
    }
  }

  lemma HeededNew(es: seq<Event>, t: Id)
    requires es != [] && Possible(es) && t in Run(es).gl.techniques && t !in Run(es[..|es| - 1]).gl.techniques
    ensures Heeded(es, Run(es), t)
  {
    hide Obeys, BindsAs, Allowed, Step, Inv, Told, CommitsTechnique, Reaches, Q.Technique.Requested, Q.Technique.Commit;
    var init, e := es[..|es| - 1], es[|es| - 1];
    RunKeeps(init);
    RunTold(init);
    GivenIsNext(init, Run(init));
    TechniqueAfter(Run(init), e, t);
    WishesBelow(init, t);
    NotYetReached(init, t);
    PassedToItself(init, e, t);
    NoCommit(init, e, t);
    NewObeys(e.creation.ofUnit);
    NewBinds(e.creation.ofUnit, Run(es).gl.Live());
  }

  // In every run: what a technique is, and what is still pending, is what it was
  // asked for.
  lemma {:induction false} TechniqueAsAsked(es: seq<Event>, t: Id)
    requires Possible(es) && t in Run(es).gl.techniques
    ensures Heeded(es, Run(es), t)
  {
    hide Heeded, Step, Allowed;
    RunIsLong(es, t);
    if t in Run(es[..|es| - 1]).gl.techniques {
      TechniqueAsAsked(es[..|es| - 1], t);
      HeededOnce(es, t);
    } else {
      HeededNew(es, t);
    }
  }
}
