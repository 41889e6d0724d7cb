# Yaza: replication, picking and shared memory, verified

Yaza is a compositor without a screen of its own. A client builds a scene of
virtual objects; the server keeps for each part of it a pending state, a
current state and, while there is a session, a copy on a remote renderer. This
project models three parts of it in Dafny and proves what they promise.

## Replication

A commit cascades pending state into current state, from a virtual object
through its units and techniques down to buffers, textures, samplers, programs
and vertex arrays, many of them shared. A plain sync sends what is flagged as
changed; a forced sync sends everything, when a session comes up; a lost
session takes every copy away.

* `Uniforms` to `DrawApiArgs` and `Gl*.dfy`: one module per kind of object. A
  record with `Commit` and `Sync` says what the object does, a class does it
  field by field, and each method is proved against the record.
* `Technique.dfy`: what it means that a copy mirrors a technique.
* `Scene.dfy`: the whole scene as one state, with every event that can happen
  to it. A cascade is described at once, by the set of objects it reaches.
* `SceneInvariant`, `SceneCascade`: the invariant of every run.
* `SceneHistory`: what a run has sent, told from what was on show and flagged
  and when, is what the renderer has content for.
* `SceneMirror`: the main theorem. In every run, at every moment of a session,
  what the incremental scheme has put on the renderer is what forgetting
  everything and sending the current state again would put there.
* `SceneCareful`: when the two are equal outright.
* `Asked`: what a run has asked for, told by its events alone, with no pending
  or current state and no flags. `AskedLives` to `AskedData` prove that the
  state of every object is what was asked for by the last commit that reached
  it, and `AskedShown` that this is what the renderer shows.
* `SceneExample`: concrete runs that need the conditions in these theorems.
* `CascadeOrder`, `Links`, `VirtualObject`, `Remote`: the objects in memory,
  with their lists, slots and weak pointers, walked one after the other in
  whatever order; a walk is proved to be the one step by which the scene
  describes it.

The copy on the renderer is part of each object's state: it is what the calls
made so far add up to. A copy has at most one id per session, so a remote id is
named by the id of the object it copies. Weak pointers are ids, locked by
looking them up among the live objects.

The code restricts what can be true. A virtual object syncs only with its app
attached, and a commit before that loses flags, so in a run the app is attached
before the first commit. A vector uniform of unknown type is not sent but takes
the place of its namesake, so in a run no commit does that to a name that is on
the renderer; `Techniques.CommitMirrorsIff` says that this is exactly when the
mirror survives. A clean buffer, texture or program that was not in use when the
session came up, and is bound later, gets a copy without content: the theorems
say so, with an iff, instead of excluding it. A target that has died leaves its
last binding on the renderer: the mirror is stated for live targets, and
`SceneCareful` gives the runs in which that restriction falls away. One
technique is made per unit, since a second one is a protocol error.

## Stacking, picking and focus

`Intersection`, `Rotation` and `Bounded` are exact geometry over real numbers,
and the boxes of an app are tied to the points of its regions. `Server`
keeps the list of surfaces: its order is proved to be that of a clock, and its
depths never tie. `Surface` keeps a renderer in step with the geometry, which
is stated of the points that are shown and of those that a ray can hit.
`ServerSeat` turns hits, buttons and drags into signals; the signals are kept
as a history, and what every run says to its clients is proved about it.
`SeatExample` reaches the one request that breaks it.

## Shared memory

`DataPool` shares blocks of memory with those it hands them to, and proves when
a block that was handed out can change. `ShmPool` counts the holders of a
mapping.

## Model

| member | source | states |
|---|---|---|
| `Uniforms.CompactionPreservesMeaningIff` | src/zwin/gles_v32/base_technique/uniform_variables.cpp:36-93 | Whatever batches of uniforms were committed, the compacted list leaves the renderer in the state that all of them, sent in order, would have left it in, for every slot lookup, iff no name that is ever sent ends with a vector of unknown type: that is not sent but takes the place of its namesake. |
| `Uniforms.IncrementalSendIff` | src/zwin/gles_v32/base_technique/uniform_variables.cpp:36-93 | Sending only the newly committed entries takes a renderer that mirrors the old list to one that mirrors the new list iff the commit displaces no name: none that was sent is last given to a vector of unknown type. |
| `Uniforms.NamesStayUnique` | src/zwin/gles_v32/base_technique/uniform_variables.cpp:41-57 | No two entries of a list ever share a non-empty name. |
| `Uniforms.UniformVariableList.Emplace` | src/zwin/gles_v32/base_technique/uniform_variables.cpp:28-34 | Appends one uniform, not newly committed. |
| `Uniforms.UniformVariableList.Commit` | src/zwin/gles_v32/base_technique/uniform_variables.cpp:36-59 | Both loops together compute the compacted list: old entries unflagged, pending ones absorbed one by one, the pending list emptied. |
| `Uniforms.UniformVariableList.Sync` | src/zwin/gles_v32/base_technique/uniform_variables.cpp:60-93 | Appends to the log of calls exactly the entries that are new, or all of them when forced, leaving out vectors of unknown type. |
| `Uniforms.SentIff` | src/zwin/gles_v32/base_technique/uniform_variables.cpp:60-93 | Of a list exactly these are sent: the entries that are new, or all when forced, being matrices or vectors of a known type. |
| `Uniforms.MessageTellsUniform` | src/zwin/gles_v32/base_technique/uniform_variables.cpp:60-93 | A call tells the renderer the location, name, type, size, columns, rows, count and transposition of the uniform, each as what it is. |
| `Buffers.SyncExactIff` | src/zwin/gles_v32/gl_buffer.cpp:54-65 | With sound flags a sync leaves the renderer exact iff it is forced, the buffer is damaged, or the renderer already had content; a clean buffer on a new copy stays blank. |
| `Buffers.CommitIdempotent` | src/zwin/gles_v32/gl_buffer.cpp:37-52 | Committing a shared buffer once more within a cascade changes nothing. |
| `Buffers.GlBuffer.Commit` | src/zwin/gles_v32/gl_buffer.cpp:37-52 | Takes the snapshot and raises the damage flag iff the linked memory still exists, and unlinks it. |
| `Buffers.GlBuffer.Sync` | src/zwin/gles_v32/gl_buffer.cpp:54-65 | Creates the copy if need be, sends iff forced or damaged, and lowers the flag only when it has sent. |
| `Buffers.GlBuffer.UpdatePendingData` | src/zwin/gles_v32/gl_buffer.cpp:67-72 | Changes the pending side only. |
| `Buffers.DropCopies` | src/zwin/gles_v32/gl_buffer.cpp:24-32 | A lost session takes away every copy and nothing else. |
| `Textures.SyncExactIff` | src/zwin/gles_v32/gl_texture.cpp:56-73 | After a sync the image on the renderer is the current one iff this sync sent it or an earlier one to the same copy did; and, apart from it, the mipmap target. |
| `Textures.GlTexture.Commit` | src/zwin/gles_v32/gl_texture.cpp:36-54 | The image and the mipmap target are taken over independently, each raising its own flag. |
| `Textures.GlTexture.Sync` | src/zwin/gles_v32/gl_texture.cpp:56-73 | Image and mipmap are sent independently, each when forced or flagged. |
| `Textures.GlTexture.NewImage2d` | src/zwin/gles_v32/gl_texture.cpp:75-78 | Replaces the pending image. |
| `Textures.GlTexture.RequestGenerateMipmap` | src/zwin/gles_v32/gl_texture.cpp:79-81 | Sets the pending mipmap target. |
| `Samplers.SyncExact` | src/zwin/gles_v32/gl_sampler.cpp:58-112 | After every sync, forced or not, the renderer has exactly the current parameters: the flag that is never lowered in effect repairs a new copy. |
| `Samplers.SyncIdempotent` | src/zwin/gles_v32/gl_sampler.cpp:65-112 | A shared sampler may be synced several times in one cascade. |
| `Samplers.GlSampler.Commit` | src/zwin/gles_v32/gl_sampler.cpp:58-63 | Overlays the current parameters with the pending ones and empties the latter. |
| `Samplers.GlSampler.Sync` | src/zwin/gles_v32/gl_sampler.cpp:65-112 | Sends each parameter in turn, in any order of the map. |
| `Samplers.GlSampler.SetParameter` | src/zwin/gles_v32/gl_sampler.cpp:114-168 | Sets one pending parameter, flagged. |
| `Shaders.GlShader.Sync` | src/zwin/gles_v32/gl_shader.cpp:36-44 | Creates the copy on demand and otherwise does nothing. |
| `Programs.LinkIndependentOfInterleaving` | src/zwin/gles_v32/gl_program.cpp:33-87 | If all attaches precede the one link request, the shaders stay alive and each session start reaches the program, then after any sync that follows the commit of the link the linked set is exactly the attached shaders, whatever commits, reconnects and syncs came between. |
| `Programs.SyncLinksIff` | src/zwin/gles_v32/gl_program.cpp:53-78 | Exactly when a sync links, and which shaders the linked program then has. |
| `Programs.GlProgram.Commit` | src/zwin/gles_v32/gl_program.cpp:33-51 | Moves the pending shaders over and raises the link flag; tells of a second link. |
| `Programs.GlProgram.SyncShaderAt` | src/zwin/gles_v32/gl_program.cpp:60-70 | One step of the scan: a dead shader is erased, a live one is synced and attached when it has to be. |
| `Programs.GlProgram.SyncShaders` | src/zwin/gles_v32/gl_program.cpp:58-71 | The scan keeps the live shaders in order, syncs them, and attaches each once. |
| `Programs.GlProgram.Sync` | src/zwin/gles_v32/gl_program.cpp:53-78 | The whole sync: copy, scan, and link iff forced or flagged, once per copy. |
| `Programs.GlProgram.RequestLink` | src/zwin/gles_v32/gl_program.cpp:80-83 | Sets the pending link. |
| `Programs.GlProgram.AttachShader` | src/zwin/gles_v32/gl_program.cpp:84-87 | Appends one pending shader. |
| `VertexArrays.SyncExact` | src/zwin/gles_v32/gl_vertex_array.cpp:63-88 | After every sync each attribute with a live buffer is on the renderer as it is here, forced or not. |
| `VertexArrays.SyncExactWhole` | src/zwin/gles_v32/gl_vertex_array.cpp:63-88 | With no dead buffer bound, the whole remote record equals the attributes. |
| `VertexArrays.RequestsKeepFlags` | src/zwin/gles_v32/gl_vertex_array.cpp:49-61 | Commits and requests keep the attribute flags sound: once up they stay up, because the commit lowers them on a copy only. |
| `VertexArrays.GlVertexArray.Commit` | src/zwin/gles_v32/gl_vertex_array.cpp:49-61 | Replaces the current map entry by entry and commits each live buffer, in whatever order the map is walked. |
| `VertexArrays.GlVertexArray.SyncAttribute` | src/zwin/gles_v32/gl_vertex_array.cpp:69-87 | One attribute: skipped without a live buffer, otherwise buffer first, then enability and pointer as flagged. |
| `VertexArrays.GlVertexArray.Sync` | src/zwin/gles_v32/gl_vertex_array.cpp:63-88 | The loop over all attributes sends each one once. |
| `VertexArrays.GlVertexArray.SetEnability` | src/zwin/gles_v32/gl_vertex_array.cpp:98-109 | Sets one pending attribute, made on first use. |
| `VertexArrays.GlVertexArray.SetPointer` | src/zwin/gles_v32/gl_vertex_array.cpp:110-132 | Points one pending attribute at a buffer, made on first use. |
| `TextureBindings.EmplaceUnique` | src/zwin/gles_v32/base_technique/texture_binding.cpp:50-59 | A point is bound at most once, and exactly the asked-for point is added. |
| `TextureBindings.BindAllEntry` | src/zwin/gles_v32/base_technique/texture_binding.cpp:34-48 | Sending the list in order leaves each entry at its point. |
| `TextureBindings.BindAllKeys` | src/zwin/gles_v32/base_technique/texture_binding.cpp:34-48 | Sending adds exactly the points of the list and removes none. |
| `TextureBindings.TextureBindingList.Commit` | src/zwin/gles_v32/base_technique/texture_binding.cpp:14-33 | Expired entries go, the list is copied iff changed, and every target left is committed. |
| `TextureBindings.TextureBindingList.Sync` | src/zwin/gles_v32/base_technique/texture_binding.cpp:34-48 | Expired entries go, every target is synced, and all points are sent iff forced or changed. |
| `TextureBindings.TextureBindingList.EmplaceBinding` | src/zwin/gles_v32/base_technique/texture_binding.cpp:50-59 | Replaces the entry at the point and raises the flag. |
| `TextureBindings.TextureBindingList.RemoveExpired` | src/zwin/gles_v32/base_technique/texture_binding.cpp:61-65 | Keeps the entries whose texture and sampler both live, in order. |
| `DrawCalls.DrawApiArgs.Commit` | src/zwin/gles_v32/base_technique/draw_api_args.cpp:35-55 | The draw call moves over iff changed; only then is its index buffer committed. |
| `DrawCalls.DrawApiArgs.Sync` | src/zwin/gles_v32/base_technique/draw_api_args.cpp:56-79 | The index buffer is synced every time; the call is sent iff forced or changed, and never with a dead buffer. |
| `DrawCalls.DrawApiArgs.SetArraysArgs` | src/zwin/gles_v32/base_technique/draw_api_args.cpp:81-86 | Sets a pending call without indices. |
| `DrawCalls.DrawApiArgs.SetElementsArgs` | src/zwin/gles_v32/base_technique/draw_api_args.cpp:87-94 | Sets a pending call with an index buffer. |
| `Techniques.CommitFlagsIff` | src/zwin/gles_v32/gl_base_technique.cpp:54-84 | A commit raises a flag for everything that it takes away from the mirror, iff it displaces no uniform. |
| `Techniques.SyncRestoresIff` | src/zwin/gles_v32/gl_base_technique.cpp:86-111 | A plain sync sends what is flagged: it ends in a mirror iff nothing but that was missing, whatever state it starts from. |
| `Techniques.CommitMirrorsIff` | src/zwin/gles_v32/gl_base_technique.cpp:54-111 | From a mirror, a commit and the plain sync after it lead to a mirror again iff the commit displaces no uniform; this is the guard of a commit in every run. |
| `Techniques.ForcedSyncEstablishes` | src/zwin/gles_v32/gl_base_technique.cpp:86-111 | A forced sync of a new copy establishes the mirror whatever flags were lost. |
| `Techniques.MirrorsLookAlike` | src/zwin/gles_v32/gl_base_technique.cpp:86-111 | Two copies that mirror the same state cannot be told apart by program, vertex array, live bindings, uniforms or draw call. |
| `Techniques.ExactRecordIff` | src/zwin/gles_v32/gl_base_technique.cpp:86-111 | A mirroring copy is what a full resend would make iff it keeps nothing for a target that has died. |
| `SceneExample.DeadTargetLeavesStaleDraw` | src/zwin/gles_v32/gl_base_technique.cpp:86-111 | A run: arrays drawn and committed, elements asked for, their buffer destroyed before the commit. The renderer still draws the arrays, a resend would draw nothing: the restriction to live targets is needed. |
| `SceneExample.RebindingLeavesBlank` | src/zwin/gles_v32/gl_buffer.cpp:54-65 | A run: a buffer filled, shown and let go, the session lost and back, the buffer shown again. It is on show and blank: the condition on content is needed. |
| `SceneExample.EarlyCommitLosesFlags` | src/zwin/virtual_object.cpp:69-87 | A reachable state from which a commit without an app, then the app, then a commit leave a live draw call that the renderer has never been told: the guard of a commit is needed. |
| `SceneExample.ShowIsPossible` | src/zwin/virtual_object.cpp:69-100 | A run that ends with a technique on show: the main theorem speaks of something. |
| `BaseTechniques.GlBaseTechnique.Commit` | src/zwin/gles_v32/gl_base_technique.cpp:54-84 | The technique object and everything it points to become what the scene's commit of one technique says, each kind of object at once. |
| `BaseTechniques.GlBaseTechnique.Sync` | src/zwin/gles_v32/gl_base_technique.cpp:86-111 | Likewise for a sync, which needs a session and the copy of the unit. |
| `BaseTechniques.GlBaseTechnique.CommitProgram` | src/zwin/gles_v32/gl_base_technique.cpp:60-67 | The slot and its flag move over, and the program bound now is committed. |
| `BaseTechniques.GlBaseTechnique.CommitVertexArray` | src/zwin/gles_v32/gl_base_technique.cpp:69-76 | Likewise for the vertex array and, through it, the buffers. |
| `BaseTechniques.GlBaseTechnique.SyncVertexArray` | src/zwin/gles_v32/gl_base_technique.cpp:95-100 | The array is synced if live and bound on the copy iff forced or flagged. |
| `BaseTechniques.GlBaseTechnique.SyncProgram` | src/zwin/gles_v32/gl_base_technique.cpp:102-107 | Likewise for the program and its shaders. |
| `BaseTechniques.GlBaseTechnique.RequestBindProgram` | src/zwin/gles_v32/gl_base_technique.cpp:113-118 | Changes the pending slot and raises its flag. |
| `BaseTechniques.GlBaseTechnique.RequestBindVertexArray` | src/zwin/gles_v32/gl_base_technique.cpp:119-124 | Changes the pending slot and raises its flag. |
| `BaseTechniques.GlBaseTechnique.RequestBindTexture` | src/zwin/gles_v32/gl_base_technique.cpp:125-130 | Changes the pending bindings. |
| `BaseTechniques.GlBaseTechnique.NewUniformVar` | src/zwin/gles_v32/gl_base_technique.cpp:131-137 | Appends a pending uniform. |
| `BaseTechniques.GlBaseTechnique.RequestDrawArrays` | src/zwin/gles_v32/gl_base_technique.cpp:138-141 | Sets the pending draw call. |
| `BaseTechniques.GlBaseTechnique.RequestDrawElements` | src/zwin/gles_v32/gl_base_technique.cpp:142-148 | Sets the pending draw call with its index buffer. |
| `CascadeOrder.CommitInAnyOrder` | src/zwin/virtual_object.cpp:69-79 | Committing some techniques and then others is committing them all at once, although they share buffers, textures and the rest. |
| `CascadeOrder.SyncInAnyOrder` | src/zwin/virtual_object.cpp:84-100 | Likewise for a sync. |
| `CascadeOrder.ObjectsInAnyOrder` | src/zwin/virtual_object.cpp:23-31 | Sending some virtual objects and then others is sending them all. |
| `Links.HeardAll` | src/zwin/virtual_object.cpp:69-75 | Walking the listeners of an object and of its units reaches exactly the techniques made for its units. |
| `Links.HeldAll` | src/zwin/virtual_object.cpp:96-98 | Walking the joined units and the techniques they hold reaches exactly the committed techniques of the object. |
| `Links.CommitKeepsTies` | src/zwin/gles_v32/rendering_unit.cpp:47-53 | The lists and slots that tie techniques, units and objects together stay consistent through first and later commits. |
| `VirtualObjects.RenderingUnit.SetTechnique` | src/zwin/gles_v32/rendering_unit.cpp:65-75 | A second technique is refused and the first one kept. |
| `VirtualObjects.RenderingUnit.Commit` | src/zwin/gles_v32/rendering_unit.cpp:47-53 | The first commit lets the unit join its object; its technique commits and is handed over; everything else stays. |
| `VirtualObjects.RenderingUnit.Sync` | src/zwin/gles_v32/rendering_unit.cpp:55-63 | The copy is made on the object's copy, and the technique that the unit holds is sent. |
| `VirtualObjects.VirtualObject.Commit` | src/zwin/virtual_object.cpp:69-79 | The objects in memory, walked in cascade, become exactly what the scene's commit makes of the scene, with the plain sync iff there is a session. |
| `VirtualObjects.VirtualObject.Sync` | src/zwin/virtual_object.cpp:84-100 | Likewise for a sync: nothing without an app, otherwise the move and every joined unit. |
| `VirtualObjects.VirtualObject.Move` | src/zwin/bounded.cpp:209-214 | Moving the app shifts its angles and commits the object from the server's side. |
| `VirtualObjects.VirtualObject.SessionEstablished` | src/zwin/virtual_object.cpp:23-31 | A committed object is sent by force, another is left alone. |
| `VirtualObjects.CreateUnit` | src/zwin/gles_v32/rendering_unit.cpp:20-36 | A new unit listens to its object and changes nothing else. |
| `VirtualObjects.CreateTechnique` | src/zwin/gles_v32/gl_base_technique.cpp:30-46 | A new technique listens to its unit and changes nothing else. |
| `VirtualObjects.CreateObject` | src/zwin/virtual_object.cpp:22-55 | A new object is bare and changes nothing else. |
| `Remotes.Remote.PeerDiscovered` | src/remote/remote.cpp:61-86 | A peer starts a session iff it is still there, none is up, and opening succeeds; then every committed object is sent by force; established and disconnected signals strictly alternate. |
| `Remotes.Remote.Disconnect` | src/remote/remote.cpp:151-157 | Every copy of every object is gone with the session. |
| `SceneInvariant.QuietStepKeeps` | src/zwin/gles_v32/gl_base_technique.cpp:113-148 | Requests, creations and deaths of graphics objects keep the whole invariant: flags sound, hierarchy of copies, everything shown mirrored. |
| `SceneInvariant.UprootKeeps` | src/zwin/gles_v32/rendering_unit.cpp:37-45 | So does the death of a unit or an object with all below it. |
| `SceneCascade.CommitCovers` | src/zwin/virtual_object.cpp:69-79 | What a commit disturbs in objects shared with other techniques, the sync after it reaches. |
| `SceneCascade.CommitKeeps` | src/zwin/virtual_object.cpp:69-100 | A commit with its sync keeps the whole invariant. |
| `SceneCascade.LossKeeps` | src/zwin/virtual_object.cpp:33-38 | So does losing the session. |
| `SceneCascade.EstablishmentKeeps` | src/zwin/virtual_object.cpp:23-31 | So does a new session, which repairs every flag lost while none was up. |
| `SceneCascade.RunKeeps` | src/zwin/virtual_object.cpp:69-100 | So does every run; in particular a technique has a copy only below a unit's copy, that only below an object's, and that only in a session. |
| `SceneMirror.IncrementalRefinesResend` | src/zwin/virtual_object.cpp:23-100 | In every run, while a session is up, each committed technique looks to the renderer as if everything had been forgotten and the current state sent again; samplers and live attributes are equal to that, and buffer data, images and mipmap targets are iff the run has sent them in this session, which is a matter of what was on show and flagged when. |
| `SceneMirror.OwnersAsResent` | src/zwin/virtual_object.cpp:84-100 | Objects stand where a reconnect would put them, and units have copies. |
| `SceneMirror.BufferAsResentIff` | src/zwin/gles_v32/gl_buffer.cpp:54-65 | A buffer on show has what a resend would give it iff the renderer has any content for it. |
| `SceneMirror.TextureAsResentIff` | src/zwin/gles_v32/gl_texture.cpp:56-73 | The image of a texture on show is that of a resend iff the renderer has received one, and so is its mipmap target. |
| `SceneHistory.FilledIffSent` | src/zwin/virtual_object.cpp:23-100 | In every run the renderer has content for a buffer, image, mipmap target or link iff the run has sent it since the session last came up. |
| `SceneHistory.StepFillsIff` | src/zwin/virtual_object.cpp:23-100 | Content stays while its object and the session last, and comes only with a step that sends it: a session start that shows it, or a commit that shows it with its flag up. |
| `SceneHistory.EstablishmentFillsIff` | src/zwin/virtual_object.cpp:23-31 | A new session gives content to exactly what is on show. |
| `SceneHistory.CommitFillsIff` | src/zwin/virtual_object.cpp:69-100 | A commit in a session gives content to exactly what it then shows and finds flagged, or flags itself. |
| `SceneHistory.SyncFillsIff` | src/zwin/virtual_object.cpp:84-100 | What one cascade of syncs gives content to. |
| `SceneHistory.CommitRaisesIff` | src/zwin/virtual_object.cpp:69-75 | Which flags one cascade of commits raises: those of what it reaches and finds changed. |
| `SceneCareful.CarefulRunsMirrorOutright` | src/zwin/virtual_object.cpp:23-100 | In runs where nothing in use is destroyed and programs are linked once, the remote records of techniques and vertex arrays are equal to a resend outright, with no restriction to live objects; the linked program is iff the run has sent the link in this session. |
| `SceneCareful.TidyProgramRecordIff` | src/zwin/gles_v32/gl_program.cpp:53-78 | When a program's record equals that of a resend. |
| `AskedLives.RunTold` | src/zwin/virtual_object.cpp:22-55 | In every run the objects of each kind are those that the events say live, with the unit and the owner they were made for. |
| `AskedTechniques.TechniqueAsAsked` | src/zwin/gles_v32/gl_base_technique.cpp:54-84 | In every run, by the events alone: a technique's current program, vertex array and draw call are the last asked for before the last commit or move of its object, none if there is none; of the bindings whose targets live it has the last one of each point; and of each uniform name the last value, in order. What is pending is what was asked for since. |
| `AskedTechniques.CommitObeyed` | src/zwin/gles_v32/gl_base_technique.cpp:54-84 | One commit takes up all that was asked for, whatever was taken up before. |
| `AskedObjects.LeafAfter` | src/zwin/virtual_object.cpp:69-79 | One step changes the state of a buffer, texture, sampler or vertex array only by a request on it or by a commit that reaches it. |
| `AskedData.ReachesIff` | src/zwin/gles_v32/gl_base_technique.cpp:54-84 | A commit reaches exactly the objects that the events say: those that a technique of the object was asked to use, an index buffer only with a draw call asked for since the last commit, and the buffers its vertex array was asked to point to. |
| `AskedData.BufferAsTaken` | src/zwin/gles_v32/gl_buffer.cpp:37-52 | In every run, by the events alone: the bytes, target and usage of a buffer are those of the last data request that a commit reaching it found linked, with the bytes that memory had at that commit; the request is then unlinked. |
| `AskedData.TextureAsTaken` | src/zwin/gles_v32/gl_texture.cpp:36-54 | Likewise for the image of a texture, and for its mipmap target, each on its own. |
| `AskedData.SamplerAsAsked` | src/zwin/gles_v32/gl_sampler.cpp:58-63 | In every run the current parameters of a sampler are the last valid value of each asked for before the last commit that reached it. |
| `AskedData.ArrayAsAsked` | src/zwin/gles_v32/gl_vertex_array.cpp:49-61 | In every run the current attributes of a vertex array are the last enability and the last pointer of each index asked for before the last commit that reached it. |
| `AskedData.MemoryAsTold` | src/zwin/gles_v32/gl_buffer.cpp:41-48 | A memory has the bytes last written to it, while it lives. |
| `Uniforms.AbsorbedIsLatest` | src/zwin/gles_v32/base_technique/uniform_variables.cpp:36-59 | The compacted list is, up to flags, the log without the entries whose name comes again later. |
| `Uniforms.LatestMeansAllIff` | src/zwin/gles_v32/base_technique/uniform_variables.cpp:36-93 | A renderer that mirrors those mirrors the whole log iff no name that was sent ends with a vector of unknown type. |
| `AskedShown.TechniqueShowsWish` | src/zwin/virtual_object.cpp:23-100 | While a session is up, the renderer has for every technique that was ever committed the program, vertex array, bindings and draw call it was asked for before its last commit, where they live; its uniforms are as if all ever asked for had been sent in order, iff no name that was sent ends with a vector of unknown type. |
| `AskedShown.BufferShowsTaken` | src/zwin/gles_v32/gl_buffer.cpp:37-65 | What the renderer has of a buffer that a technique draws from is what the last taking commit took from memory, if the run has sent anything of it in this session, and nothing otherwise. |
| `AskedShown.TextureShowsTaken` | src/zwin/gles_v32/gl_texture.cpp:36-73 | Likewise for the image and the mipmap target of a texture that is bound. |
| `AskedShown.SamplerShowsParams` | src/zwin/gles_v32/gl_sampler.cpp:58-112 | A sampler that is bound has on the renderer exactly the last parameters asked for before the last commit that reached it. |
| `AskedShown.AttributeShowsAsked` | src/zwin/gles_v32/gl_vertex_array.cpp:49-88 | An attribute of the vertex array in use is on the renderer as it was asked for before the last commit that reached the array, if its buffer lives. |
| `AskedShown.ObjectShowsPose` | src/zwin/virtual_object.cpp:84-100 | A committed object stands on the renderer where its app was attached, moved by the sum of all motions since. |
| `Intersections.WithSurfaceIff` | src/util/intersection.cpp:14-43 | The test returns (t, u, v) iff the ray is at that point of the surface, with t not negative and u and v from 0 to 1; so it is sound, complete and has one answer. |
| `Intersections.WithObb` | src/util/intersection.cpp:47-76 | The loop returns the least distance in range at which the ray is in all three slabs, and none iff there is no such distance, for half sizes of any sign. |
| `Intersections.AxisExactIff` | src/util/intersection.cpp:57-74 | For one axis, exactly when the slab test agrees with the slab at every distance in range: a fast component does unless the half size is negative and the slab is met, a slow one only if it stays inside, or stays outside, over the whole range. |
| `Intersections.RegularIsExact` | src/util/intersection.cpp:57-74 | In particular it agrees for components that are zero or above the cutoff. |
| `Intersections.SlabsAreBox` | src/util/intersection.cpp:57-74 | On such axes, being in all slabs is being in the box, at every distance in range. |
| `Intersections.SlowRayMisses` | src/util/intersection.cpp:60-73 | A unit direction with a component below the cutoff is in a box at a distance in range, and the test reports that box at no distance. |
| `Boundeds.HitIsFirstEntry` | src/zwin/bounded.cpp:132-167 | With the regions inside the outer box and every axis tested rightly, the hit is where the ray first enters any region, and the outer distance changes nothing. |
| `Rotations.ApplyAlong` | src/zwin/bounded.cpp:134-148 | An orthonormal turn takes the coordinates of a vector along its columns back to the vector. |
| `Rotations.TurnKeepsDot` | src/zwin/bounded.cpp:134-148 | An orthonormal turn keeps dot products. |
| `Boundeds.RegionIsPlaced` | src/zwin/bounded.cpp:144-148 | A point of the app's own space lies in a region, by the three inequalities along the region's own columns from its centre, iff its place in the scene lies in the box that is tested. |
| `Boundeds.OuterIsPlaced` | src/zwin/bounded.cpp:134-138 | Likewise for the outer box, which is upright in the app's own space. |
| `Boundeds.OccupiedIff` | src/zwin/bounded.cpp:142-149 | A point of the scene is in some tested box iff some region of the app, turned and moved as the app is, holds it. |
| `Boundeds.BoundedApp.CheckIntersection` | src/zwin/bounded.cpp:132-167 | The greater of the outer hit and the least region hit, or none when either is missing; for an orthonormal turn, regions inside the app and axes tested rightly, that is where the ray first comes to a point that some region holds in the app's own space. |
| `Boundeds.BoundedApp.LeastRegion` | src/zwin/bounded.cpp:142-156 | The loop returns the first hit of all regions together, which on axes tested rightly is the first point of the ray that a region holds. |
| `Boundeds.BoundedApp.Configure` | src/zwin/bounded.cpp:172-183 | A size is offered under its serial; no size in force was never offered. |
| `Boundeds.BoundedApp.AckConfigure` | src/zwin/bounded.cpp:184-190 | The size of a known serial becomes pending; an unknown serial is ignored. |
| `Boundeds.BoundedApp.Commit` | src/zwin/bounded.cpp:191-195 | Size, scale and regions take effect together. |
| `Surfaces.Surface.Commit` | src/wayland/surface.cpp:327-365 | Offset and buffer are taken over, the scale being the width and height of a supported buffer over 9000; after it, whenever there is a texture, the renderer shows every point of the unit square where `ModelSeen` says; an unsupported format leaves none. |
| `Surfaces.Surface.ModelSeen` | src/wayland/surface.cpp:229-236 | What the renderer is given puts a point of the unit square at the position, shifted by the offset in pixels with y downwards, plus the columns of the rotation times the scaled coordinates; every point of an inactive surface goes to the zero of homogeneous coordinates, whatever the trigonometry is. |
| `Surfaces.Surface.WidthSeen` | src/wayland/surface.cpp:184-210 | The quad reaches from -1 to 1, so an active surface is shown, along the first column of its rotation, twice as wide as its texture in metres. |
| `Surfaces.Surface.HeightSeen` | src/wayland/surface.cpp:184-210 | Likewise its height, along the second column. |
| `Surfaces.Surface.HitIff` | src/wayland/surface.cpp:159-182 | The test returns a distance and a pixel iff the surface has a texture, is no cursor, and the ray at that distance is at the point of the surface which lies there: x half widths right of the centre and y half heights above it, both from -1 to 1, the pixel being counted from the left and from the top. |
| `Surfaces.Surface.InitRenderer` | src/wayland/surface.cpp:184-210 | After a reconnect the renderer follows the surface and, if there is a texture, shows every point where `ModelSeen` says. |
| `Surfaces.Surface.Move` | src/wayland/surface.cpp:276-284 | The angles change by the given amounts and the renderer shows every point where they put it. |
| `Surfaces.Surface.MoveCursor` | src/wayland/surface.cpp:285-297 | The left top corner is placed, and the renderer shows the result. |
| `Surfaces.Surface.SetActive` | src/wayland/surface.cpp:255-261 | An active surface is shown with every point in its place, an inactive one with all points in none. |
| `Surfaces.Surface.UpdateDistanceByLayerIndex` | src/wayland/surface.cpp:299-309 | A cursor consumes no layer; any other surface stands at the distance of its layer, and is shown there. |
| `Surfaces.Surface.SetTextureSize` | src/wayland/surface.cpp:237-245 | The size and the scale change together and the renderer follows. |
| `Servers.LayerIsRank` | src/server.cpp:182-191 | In a list ordered by stamps that misses no one, the layers before an entry are those created or raised after it. |
| `Servers.Server.LayerCountsLater` | src/server.cpp:182-191 | After a reorder a stacked surface stands at 0.4, plus 0.0001 for each live stacked surface created or raised later. |
| `Servers.Server.ReorderSurfaces` | src/server.cpp:182-191 | The walk drops exactly the dead entries, keeps the order, and gives each surface that is not a cursor the next layer. |
| `Servers.Server.AddSurface` | src/server.cpp:124-127 | The new surface comes first, with the latest stamp; distances increase along the list. |
| `Servers.Server.RaiseSurfaceTop` | src/server.cpp:168-181 | A live surface comes first and nearest, with the latest stamp; a dead one changes nothing. |
| `Servers.Server.SurfaceDies` | src/server.cpp:133-143 | Distances still increase along the list, with no reorder. |
| `Servers.Server.BecomesCursor` | src/input/server_seat.cpp:103 | Distances of the others still increase along the list, with no reorder. |
| `Servers.Server.NearestHit` | src/input/server_seat.cpp:173-190 | Both lists lose exactly their dead entries, and the result is the last entry, of surfaces followed by apps, whose distance is least. |
| `Servers.Server.HitsAreShown` | src/wayland/surface.cpp:161-164 | What is hit is an app, or a surface with a texture that is no cursor. |
| `Servers.Server.HitsIff` | src/input/server_seat.cpp:173-190 | A surface is hit at a distance iff it lives, has a texture, is no cursor, and the ray at that distance is at a point of it; an app, iff it is said to be. |
| `Servers.Server.MoveObject` | src/wayland/surface.cpp:276-284 | The object turns by the given angles and no other does. |
| `Servers.NearestUnique` | src/input/server_seat.cpp:183-187 | There is only one such entry. |
| `Servers.Scan` | src/server.cpp:133-155 | The walk with erasure sees each live entry once, in order. |
| `RayCasters.RayCaster.MoveRel` | src/input/ray_caster.cpp:59-74 | The polar angle stops at an eighth of a half turn from either pole, and the amount returned is by how much it has really changed. |
| `Seats.OneAtATime` | src/input/server_seat.cpp:173-229 | When enters and leaves are bracketed, at most one object is entered and at most one surface has the keyboard. |
| `Seats.EntersAlternate` | src/input/server_seat.cpp:213-229 | Between two enters the first object is left, or dies. |
| `Seats.MotionIsInside` | src/input/server_seat.cpp:192-199 | A motion or a leave is told only to an object that was entered and not left since. |
| `Seats.ServerSeat.CheckIntersection` | src/input/server_seat.cpp:173-211 | The focus becomes the nearest hit of the geometry as it was: the ray meets it at the distance told, and meets no surface nearer; it is never a cursor or a surface without a texture; exactly this is told: a leave and an enter if the focus changes, and a motion; without a hit, a leave, and the cursor goes. |
| `Seats.ServerSeat.SetFocusedObj` | src/input/server_seat.cpp:213-229 | The old object is left iff the focus changes and it is live. |
| `Seats.ServerSeat.RequestStartMove` | src/input/server_seat.cpp:143-154 | The signals stay bracketed iff no drag of the client's object is under way; a repeated request leaves the object twice. |
| `Seats.ServerSeat.HandleMouseButton` | src/input/server_seat.cpp:119-135 | A release ends a drag and the focus becomes the nearest hit, entered anew; otherwise exactly the button is told, and a press gives the surface in focus the keyboard, or takes it away when nothing is in focus. |
| `Seats.ServerSeat.HandleMouseWheel` | src/input/server_seat.cpp:136-141 | Exactly the scroll is told, to the live focus only. |
| `Seats.ServerSeat.MoveRelPointing` | src/input/server_seat.cpp:156-172 | The ray turns, clamped. At rest the focus becomes the object that the ray meets, none being met nearer, and exactly its enter, motion and the leave of the old one are told; while dragging nothing is told and the object keeps its offset from the ray, exactly. The cursor, if it lives, ends with its hot spot where the ray ends, turned with the ray. |
| `Seats.ServerSeat.MoveAlong` | src/input/server_seat.cpp:156-172 | Over any motions, clamped or not, the dragged object keeps its place relative to the ray. |
| `Seats.ServerSeat.PointAt` | src/input/server_seat.cpp:192-201 | The object is entered first if it is not yet, then told of the motion; the cursor is nearer than the hit and the ray shorter still. |
| `SeatExample.SecondDragLeavesTwice` | src/input/server_seat.cpp:143-154 | From a new server: a surface is shown and pointed at, and its client asks for a drag twice. It is left twice, so the condition of a drag request is needed. |
| `Seats.ServerSeat.SetKeyboardFocusedSurface` | src/input/server_seat.cpp:43-68 | The keyboard goes from one surface to the other; a toplevel newly focused is first in the list, nearest, and the only activated one. |
| `Seats.ServerSeat.TryLeaveKeyboard` | src/input/server_seat.cpp:69-82 | A live surface is deactivated, left and forgotten; a dead one is kept as it is. |
| `Seats.ServerSeat.OnFocus` | src/wayland/surface.cpp:263-269 | A toplevel is raised and activated; another surface is left alone. |
| `Seats.ServerSeat.SetSurfaceAsCursor` | src/input/server_seat.cpp:84-107 | The hot spot is taken in metres, with y downwards, and a new cursor is put with it where the ray ends. Of the surfaces that are cursors exactly the one in use is on show; everything the seat keeps is kept iff the surface is not an activated toplevel, which the source turns into a cursor and leaves activated. |
| `Seats.ServerSeat.SurfaceCreated` | src/wayland/surface.cpp:456-461 | All of this survives the arrival of a surface. |
| `Seats.ServerSeat.AppCreated` | src/server.cpp:128-131 | And of an app. |
| `Seats.ServerSeat.SurfaceDies` | src/input/server_seat.cpp:43-82 | And the death of any surface. |
| `Seats.ServerSeat.AppDies` | src/input/server_seat.cpp:173-229 | And of any app. |
| `DataPools.DataPool.EnsureAndSetDataSize` | src/util/data_pool.cpp:64-74 | A block is kept iff what it holds now is at least as long. |
| `DataPools.DataPool.FromBytes` | src/util/data_pool.cpp:15-23 | The copy is exact; blocks that were handed out stay as they were iff the block is new, was not handed out, or is overwritten with what it held. |
| `DataPools.DataPool.Commit` | src/zwin/gles_v32/gl_buffer.cpp:37-52 | Because it resets first, a commit writes to a new block only: nothing handed out ever changes. |
| `DataPools.DataPool.ReadWlSurfaceTexture` | src/util/data_pool.cpp:26-47 | Likewise for a surface, whose snapshot is the exact reordering of every pixel. |
| `DataPools.DataPool.CreateBuffer` | src/util/data_pool.cpp:54-62 | The block itself is handed out. |
| `DataPools.ChannelsSwap` | src/util/data_pool.cpp:33-44 | In every pixel the first and the third byte change places and the others stay. |
| `DataPools.SwizzleTwice` | src/util/data_pool.cpp:33-44 | The reordering of pixels is its own inverse. |
| `ShmPools.ShmPool.CreateBuffer` | src/zwin/shm/shm_pool.cpp:46-67 | A buffer is refused iff it does not lie inside the mapping; a refused or failed one takes no reference. |
| `ShmPools.ShmPool.Resize` | src/zwin/shm/shm_pool.cpp:68-87 | The pool never shrinks; when the remap fails it stays as it is and the wanted size is kept. |
| `ShmPools.ShmPool.FinishResize` | src/zwin/shm/shm_pool.cpp:27-41 | Size and place change together or not at all. |
| `ShmPools.ShmPool.Unref` | src/zwin/shm/shm_pool.cpp:137-155 | The last external reference lets a pending resize happen; the mapping is released when the last reference of either kind goes. |
| `ShmPools.ShmPool.DestroyBuffer` | src/zwin/shm/shm_buffer.cpp:30-34 | Gives its reference back: the mapping is released iff it was the last holder, and only once. |
| `ShmPools.ShmPool.DestroyPool` | src/zwin/shm/shm_pool.cpp:94-97 | Likewise for the pool's resource. |

## Left out

- SceneMirror.IncrementalRefinesResend: buffers, images and mipmap targets are equal to a resend only when the run has sent them in this session, and slots are compared only while their targets live; both restrictions are in the code, and the runs of SceneExample.RebindingLeavesBlank and SceneExample.DeadTargetLeavesStaleDraw need them.
- SceneCascade.CommitKeeps: asks for an attached app and for no displaced uniform; without the app SceneExample.EarlyCommitLosesFlags shows the failure, and Techniques.SyncRestoresIff says which techniques recover; of the uniforms Techniques.CommitMirrorsIff gives the exact condition.
- SceneCascade.RunKeeps: its runs keep to the guards of a commit above, and to owners that die after all below them has been committed; before that the source leaves what is below with a dangling owner.
- Shaders.GlShader.Sync: the text is fixed at creation, whereas the source reads the shared memory at the first sync of a session, and so sees later writes to it.
- Servers.Server.NearestHit: takes the distances as given; Servers.Server.HitsIff says what they are for surfaces, and those of the bounded apps are given.
- Seats.ServerSeat.CheckIntersection: asks that the ray is along the plane of no surface that is tested, where the source divides by zero; how far away a bounded app is hit is given, and is what Boundeds.BoundedApp.CheckIntersection returns.
- Surfaces.Surface.ModelSeen: angles are made into points and rotations by functions that are given; the unit square reaches from -1 to 1, so what is shown is twice as wide and as high as the size of the texture in metres, as in the source.
- AskedShown.BufferShowsTaken: tells what the renderer has by whether the run has sent the buffer in this session, which SceneHistory.FilledIffSent makes a matter of flags and not of requests.
- AskedData.TextureAsTaken: a mipmap target that was never asked for is uninitialised in the source, and nothing is said of it.
- VirtualObjects.RenderingUnit.Commit: at most one technique listens to a unit.
- VirtualObjects.CreateTechnique: asks that no technique was made for the unit; the source finds out only at the first commit, and then posts an error.
- DataPools.DataPool.ReadWlSurfaceTexture: asks that the size is a multiple of four; for another size the loop runs past the end of both blocks.
- Intersections.WithSurfaceIff: asks that the determinant is not zero; the source divides by it regardless.
- Float rounding, infinities and not-a-number; a direction is taken as normalised, and trigonometry and quaternions are left uninterpreted, a rotation being its three columns.
- The contents of mipmaps: only the last target asked for is kept.
- The byte layout of shared memory and the sizes of uniform arrays: values are opaque.
- Destroying objects, units and techniques at the level of objects in memory; the scene has it.
- Taking an external reference to a pool: nothing in the source does.
- The signal handler for failed accesses to shared memory, and the nesting of accesses.
- The sockets, the input thread and the decoding of input; each input event is one step.
- Frame callbacks and the frame timer.
- Popups, positioners, input regions, outputs and the data device.
- Which resource of a client a signal is sent to: a signal is told to the object.
