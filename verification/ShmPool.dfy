// A pool of shared memory: one mapping, held by the pool's resource and by
// each of its buffers, and released by the last of them.
module ShmPools {
  import opened Common

  // The part of the mapping that a buffer covers.
  datatype Extent = Extent(offset: int, size: int)

  class ShmPool {
    var internalRefcount: int
    var externalRefcount: int
    var size: int
    var newSize: int
    // Where the mapping is; mremap may move it.
    var data: int
    var hasResource: bool
    ghost var buffers: map<Id, Extent>
    // How often the mapping has been released.
    ghost var released: nat

    constructor (size: int, data: int)
      ensures Valid() && hasResource && buffers == map[] && this.size == size && released == 0
    {
      internalRefcount, externalRefcount := 1, 0;
      this.size, newSize, this.data := size, size, data;
      hasResource, buffers, released := true, map[], 0;
    }

    // As many references as there are live holders; the mapping is released
    // once, when there is none; every live buffer lies inside it.
    ghost predicate Valid()
      reads this
    {
      && internalRefcount == |buffers| + (if hasResource then 1 else 0) && externalRefcount == 0
      && released == (if internalRefcount == 0 then 1 else 0)
      && size <= newSize
      && forall b :: b in buffers ==> Inside(buffers[b], size)
    }

    ghost predicate Inside(e: Extent, size: int) {
      0 <= e.offset && 0 < e.size && e.offset + e.size <= size
    }

    // The remap may fail; then the pool stays as it is.
    method FinishResize(remapped: Option<int>) returns (error: bool)
      modifies this`size, this`data
      ensures size == (if old(size) == newSize || remapped.None? then old(size) else newSize)
      ensures error == (old(size) != newSize && remapped.None?)
      ensures data == if old(size) == newSize || remapped.None? then old(data) else remapped.value
    {
      if size == newSize {
        return false;
      }
      if remapped.None? {
        return true;
      }
      data := remapped.value;
      size := newSize;
      error := false;
    }

    // `allocates` tells whether there is memory for the buffer's resource.
    method CreateBuffer(id: Id, offset: int, bytes: int, allocates: bool) returns (error: bool)
      requires Valid() && hasResource && id !in buffers
      modifies this`internalRefcount, this`buffers
      ensures Valid()
      ensures error == !Inside(Extent(offset, bytes), size)
      ensures buffers == if error || !allocates then old(buffers) else old(buffers)[id := Extent(offset, bytes)]
    {
      if offset < 0 || bytes <= 0 || offset > size - bytes {
        return true;
      }
      error := false;
      if allocates {
        internalRefcount := internalRefcount + 1;
        buffers := buffers[id := Extent(offset, bytes)];
      }
    }

    // The pool only grows; a failed remap leaves a size that is still wanted.
    method Resize(wanted: int, remapped: Option<int>) returns (error: bool)
      requires Valid() && hasResource
      modifies this`size, this`newSize, this`data
      ensures Valid() && size >= old(size)
      ensures wanted < old(size) ==> error && size == old(size) && newSize == old(newSize)
      ensures wanted >= old(size) ==>
                newSize == wanted && size == (if remapped.Some? then wanted else old(size)) && error == (size != wanted)
    {
      if wanted < size {
        return true;
      }
      newSize := wanted;
      error := false;
      if externalRefcount == 0 {
        error := FinishResize(remapped);
      }
    }

    // The last external reference lets a resize happen that it held up; the
    // last reference of all releases the mapping.
    method Unref(external: bool, remapped: Option<int>)
      requires internalRefcount >= 0 && externalRefcount >= 0
      requires if external then externalRefcount > 0 else internalRefcount > 0
      modifies this`internalRefcount, this`externalRefcount, this`size, this`data, this`released
      ensures internalRefcount == old(internalRefcount) - (if external then 0 else 1)
      ensures externalRefcount == old(externalRefcount) - (if external then 1 else 0)
      ensures released == old(released) + if internalRefcount == externalRefcount == 0 then 1 else 0
      ensures var resized := external && externalRefcount == 0 && old(size) != newSize && remapped.Some?;
              && size == (if resized then newSize else old(size))
              && data == (if resized then remapped.value else old(data))
    {
      if external {
        externalRefcount := externalRefcount - 1;
        if externalRefcount == 0 {
          var _ := FinishResize(remapped);
        }
      } else {
        internalRefcount := internalRefcount - 1;
      }
      if internalRefcount + externalRefcount > 0 {
        return;
      }
      released := released + 1;
    }

    method DestroyBuffer(id: Id)
      requires Valid() && id in buffers
      modifies this`internalRefcount, this`externalRefcount, this`size, this`data, this`buffers, this`released
      ensures Valid() && buffers == old(buffers) - {id} && size == old(size) && data == old(data)
      ensures released == if buffers == map[] && !hasResource then 1 else 0
    {
      assert (buffers - {id}).Keys == buffers.Keys - {id};
      assert |buffers| == |buffers.Keys| && |buffers - {id}| == |(buffers - {id}).Keys|;
      Unref(false, None);
      buffers := buffers - {id};
    }

    method DestroyPool()
      requires Valid() && hasResource
      modifies this`internalRefcount, this`externalRefcount, this`size, this`data, this`hasResource, this`released
      ensures Valid() && !hasResource && size == old(size) && data == old(data)
      ensures released == if buffers == map[] then 1 else 0
    {
      Unref(false, None);
      hasResource := false;
    }
  }
}
