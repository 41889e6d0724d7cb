// A GL texture: image and mipmap request carry two independent sticky flags.
module Textures {
  import opened Common

  datatype Image2d = Image2d(
    target: nat, level: int, internalFormat: int, width: nat, height: nat,
    border: int, format: nat, pixelType: nat)

  datatype TexturePending = TexturePending(image: Image2d, data: Option<Id>, mipmapTarget: nat)
  datatype TextureCurrent = TextureCurrent(
    image: Image2d, data: Option<Bytes>, mipmapTarget: nat, dataChanged: bool, mipmapChanged: bool)

  datatype Upload = Upload(image: Image2d, data: Option<Bytes>)

  // The copy on the renderer: the last upload and the last mipmap request.
  datatype RemoteTexture = RemoteTexture(upload: Option<Upload>, mipmap: Option<nat>)

  datatype Request = NewImage2d(image: Image2d, data: Id) | GenerateMipmap(target: nat)

  datatype Texture = Texture(pending: TexturePending, current: TextureCurrent, proxy: Option<RemoteTexture>) {
    function Requested(r: Request): Texture {
      match r
      case NewImage2d(image, data) => this.(pending := pending.(image := image, data := Some(data)))
      case GenerateMipmap(target) => this.(pending := pending.(mipmapTarget := target))
    }

    predicate HasResource(shm: map<Id, Bytes>) {
      pending.data.Some? && pending.data.value in shm
    }

    function CommitImage(shm: map<Id, Bytes>): Texture {
      if !HasResource(shm) then this
      else
        this.(pending := pending.(data := None),
              current := current.(image := pending.image, data := Some(shm[pending.data.value]), dataChanged := true))
    }

    function CommitMipmap(): Texture {
      if pending.mipmapTarget == 0 then this
      else
        this.(pending := pending.(mipmapTarget := 0),
              current := current.(mipmapTarget := pending.mipmapTarget, mipmapChanged := true))
    }

    function Commit(shm: map<Id, Bytes>): Texture {
      CommitImage(shm).CommitMipmap()
    }

    function CurrentUpload(): Upload {
      Upload(current.image, current.data)
    }

    function Sync(force: bool): Texture {
      var copy := proxy.GetOr(RemoteTexture(None, None));
      var upload := if force || current.dataChanged then Some(CurrentUpload()) else copy.upload;
      var mipmap := if force || current.mipmapChanged then Some(current.mipmapTarget) else copy.mipmap;
      Texture(pending, current.(dataChanged := false, mipmapChanged := false), Some(RemoteTexture(upload, mipmap)))
    }

    predicate FlagSound() {
      proxy.Some? ==>
        && (proxy.value.upload.Some? && !current.dataChanged ==> proxy.value.upload == Some(CurrentUpload()))
        && (proxy.value.mipmap.Some? && !current.mipmapChanged ==> proxy.value.mipmap == Some(current.mipmapTarget))
    }

    predicate Blank() {
      proxy.Some? && proxy.value.upload.None?
    }

    predicate Clean() {
      proxy.Some? && !current.dataChanged && !current.mipmapChanged
    }

    // The renderer shows the current image.
    predicate Exact() {
      proxy.Some? && proxy.value.upload == Some(CurrentUpload())
    }

    // The last mipmap request there is the current one.
    predicate ExactMipmap() {
      proxy.Some? && proxy.value.mipmap == Some(current.mipmapTarget)
    }
  }

  // A texture as created; the image and mipmap target start uninitialised.
  function NewTexture(junk: Image2d, junkMipmap: nat): Texture {
    Texture(TexturePending(junk, None, 0), TextureCurrent(junk, None, junkMipmap, false, false), None)
  }

  lemma CommitIdempotent(t: Texture, shm: map<Id, Bytes>)
    ensures t.Commit(shm).Commit(shm) == t.Commit(shm)
  {
  }

  // The image is exact after a sync iff this sync sends it or an earlier one
  // did, and so, apart from it, is the mipmap target.
  lemma SyncExactIff(t: Texture, force: bool)
    requires t.FlagSound()
    ensures t.Sync(force).FlagSound() && t.Sync(force).Clean()
    ensures t.Sync(force).Exact() <==> (force || t.current.dataChanged || (t.proxy.Some? && !t.Blank()))
    ensures t.Sync(force).Exact() <==> !t.Sync(force).Blank()
    ensures t.Sync(force).ExactMipmap() <==>
            (force || t.current.mipmapChanged || (t.proxy.Some? && t.proxy.value.mipmap.Some?))
  {
  }

  class GlTexture {
    const id: Id
    var pending: TexturePending
    var current: TextureCurrent
    var proxy: Option<RemoteTexture>

    constructor (id: Id, junk: Image2d, junkMipmap: nat)
      ensures this.id == id
      ensures State() == NewTexture(junk, junkMipmap)
    {
      this.id := id;
      pending := TexturePending(junk, None, 0);
      current := TextureCurrent(junk, None, junkMipmap, false, false);
      proxy := None;
    }

    function State(): Texture
      reads this
    {
      Texture(pending, current, proxy)
    }

    method Commit(shm: map<Id, Bytes>)
      modifies this
      ensures State() == old(State()).Commit(shm)
    {
      if pending.data.Some? && pending.data.value in shm {
        if current.data.Some? {
          current := current.(data := None);
        }
        current := current.(image := pending.image);
        current := current.(data := Some(shm[pending.data.value]));
        current := current.(dataChanged := true);
        pending := pending.(data := None);
      }
      if pending.mipmapTarget != 0 {
        current := current.(mipmapTarget := pending.mipmapTarget);
        current := current.(mipmapChanged := true);
        pending := pending.(mipmapTarget := 0);
      }
    }

    method Sync(session: bool, force: bool)
      requires session
      modifies this
      ensures State() == old(State()).Sync(force)
    {
      if proxy.None? {
        proxy := Some(RemoteTexture(None, None));
      }
      if force || current.dataChanged {
        proxy := Some(proxy.value.(upload := Some(Upload(current.image, current.data))));
        current := current.(dataChanged := false);
      }
      if force || current.mipmapChanged {
        proxy := Some(proxy.value.(mipmap := Some(current.mipmapTarget)));
        current := current.(mipmapChanged := false);
      }
    }

    function RemoteId(): Id
      requires proxy.Some?
      reads this
    {
      id
    }

    method NewImage2d(image: Image2d, data: Id)
      modifies this
      ensures State() == old(State()).Requested(Request.NewImage2d(image, data))
    {
      pending := pending.(image := image);
      pending := pending.(data := Some(data));
    }

    method RequestGenerateMipmap(target: nat)
      modifies this
      ensures State() == old(State()).Requested(GenerateMipmap(target))
    {
      pending := pending.(mipmapTarget := target);
    }
  }

  // The live objects, each filed under its own id.
  type Registry = map<Id, GlTexture>

  ghost predicate Filed(reg: Registry) {
    forall i :: i in reg ==> reg[i].id == i
  }

  ghost function States(reg: Registry): map<Id, Texture>
    reads reg.Values
  {
    map i | i in reg :: reg[i].State()
  }

  ghost function CommitSome(all: map<Id, Texture>, which: set<Id>, shm: map<Id, Bytes>): map<Id, Texture> {
    map i | i in all :: if i in which then all[i].Commit(shm) else all[i]
  }

  lemma CommitSomeTwice(all: map<Id, Texture>, a: set<Id>, b: set<Id>, shm: map<Id, Bytes>)
    ensures CommitSome(CommitSome(all, a, shm), b, shm) == CommitSome(all, a + b, shm)
  {
    forall i | i in all
      ensures all[i].Commit(shm).Commit(shm) == all[i].Commit(shm)
    {
      CommitIdempotent(all[i], shm);
    }
  }

  // Locks a weak pointer and commits its target.
  method CommitLocked(reg: Registry, i: Id, shm: map<Id, Bytes>)
    requires Filed(reg)
    modifies reg.Values
    ensures States(reg) == CommitSome(old(States(reg)), {i}, shm)
  {
    if i in reg {
      reg[i].Commit(shm);
    }
  }

  ghost function SyncSome(all: map<Id, Texture>, which: set<Id>, force: bool): map<Id, Texture> {
    map i | i in all :: if i in which then all[i].Sync(force) else all[i]
  }

  lemma SyncSomeTwice(all: map<Id, Texture>, a: set<Id>, b: set<Id>, force: bool)
    ensures SyncSome(SyncSome(all, a, force), b, force) == SyncSome(all, a + b, force)
  {
    assert forall i :: i in all ==> all[i].Sync(force).Sync(force) == all[i].Sync(force);
  }

  // Locks a weak pointer and syncs its target; tells whether it was live.
  method SyncLocked(reg: Registry, i: Id, session: bool, force: bool) returns (live: bool)
    requires session && Filed(reg)
    modifies reg.Values
    ensures States(reg) == SyncSome(old(States(reg)), {i}, force)
    ensures live == (i in reg) && (live ==> reg[i].proxy.Some?)
  {
    live := i in reg;
    if live {
      reg[i].Sync(session, force);
    }
  }

  // A lost session: no object has a copy any more.
  ghost function Dropped(all: map<Id, Texture>): map<Id, Texture> {
    map i | i in all :: all[i].(proxy := None)
  }

  method DropCopies(reg: Registry)
    requires Filed(reg)
    modifies reg.Values`proxy
    ensures States(reg) == Dropped(old(States(reg)))
  {
    forall i | i in reg {
      reg[i].proxy := None;
    }
  }
}
