// A snapshot of client data. The block of memory is shared with whoever was
// handed it, so what matters is when a block is written again.
module DataPools {
  import opened Common

  // From one order of the four bytes of a pixel to the other, and back.
  function Source(i: nat): nat {
    if i % 4 == 0 then i + 2 else if i % 4 == 2 then i - 2 else i
  }

  function Swizzled(s: seq<Byte>): seq<Byte>
    requires |s| % 4 == 0
  {
    seq(|s|, i requires 0 <= i < |s| => s[Source(i)])
  }

  // Reordering twice gives the pixels back.
  lemma SwizzleTwice(s: seq<Byte>)
    requires |s| % 4 == 0
    ensures Swizzled(Swizzled(s)) == s
  {
    assert forall i :: 0 <= i < |s| ==> Source(i) < |s| && Source(Source(i)) == i;
  }

  // Red and blue change places, green and alpha stay.
  lemma ChannelsSwap(s: seq<Byte>, k: nat)
    requires |s| % 4 == 0 && 4 * k < |s|
    ensures var t := Swizzled(s);
            && t[4 * k] == s[4 * k + 2] && t[4 * k + 1] == s[4 * k + 1]
            && t[4 * k + 2] == s[4 * k] && t[4 * k + 3] == s[4 * k + 3]
  {
    assert (4 * k) % 4 == 0 && (4 * k + 1) % 4 == 1 && (4 * k + 2) % 4 == 2 && (4 * k + 3) % 4 == 3;
  }

  class DataPool {
    var size: nat
    var data: array?<Byte>
    // What was in each block when it was handed out.
    ghost var handed: map<array<Byte>, seq<Byte>>

    constructor ()
      ensures Valid() && data == null && handed == map[]
    {
      size, data, handed := 0, null, map[];
    }

    ghost predicate Valid()
      reads this, data, handed.Keys
    {
      && (data == null ==> size == 0) && (data != null ==> size <= data.Length)
      && Frozen()
    }

    // No block that was handed out has changed since.
    ghost predicate Frozen()
      reads this, handed.Keys
    {
      forall b :: b in handed ==> b[..] == handed[b]
    }

    method Reset()
      requires Valid()
      modifies this`size, this`data
      ensures Valid() && data == null && size == 0
    {
      size := 0;
      data := null;
    }

    // A block is kept if what it holds now is at least as long.
    method EnsureAndSetDataSize(n: nat)
      modifies this`size, this`data
      ensures size == n
      ensures if old(size) >= n then data == old(data) else data != null && fresh(data) && data.Length == n
    {
      if size >= n {
        size := n;
        return;
      }
      data := new Byte[n];
      size := n;
    }

    // Copies the source into the block, in place when it is kept. Then, and
    // only then, a block that was handed out may change: it stays as it was
    // iff what is written is what was there.
    method FromBytes(src: seq<Byte>)
      requires Valid()
      modifies this`size, this`data, data
      ensures size == |src| && (|src| > 0 ==> data != null)
      ensures data != null ==> size <= data.Length && data[..size] == src
      ensures if old(size) >= |src| then data == old(data) else data != null && fresh(data) && data.Length == size
      ensures handed == old(handed)
      ensures Frozen() <==>
              old(size) < |src| || data == null || data !in handed || handed[data][..|src|] == src
    {
      EnsureAndSetDataSize(|src|);
      if data == null {
        return;
      }
      var dst: array<Byte> := data;
      for i := 0 to size
        modifies dst
        invariant size == |src| <= dst.Length && dst[..i] == src[..i]
        invariant old(size) >= |src| ==> dst[|src|..] == old(data[|src|..])
      {
        dst[i] := src[i];
      }
      assert src[..size] == src;
      if old(size) >= |src| && dst in handed {
        assert handed[dst] == old(dst[..]);
        assert dst[..] == dst[..|src|] + dst[|src|..];
        assert handed[dst] == handed[dst][..|src|] + handed[dst][|src|..];
        assert dst[|src|..] == handed[dst][|src|..];
      }
    }

    // What every owner does on commit: it lets the old block go first.
    method Commit(src: seq<Byte>)
      requires Valid()
      modifies this`size, this`data
      ensures Valid() && handed == old(handed) && size == |src|
      ensures if |src| == 0 then data == null else data != null && fresh(data) && data[..] == src
    {
      if data != null {
        Reset();
      }
      FromBytes(src);
      assert data != null ==> data[..] == data[..size];
    }

    // The same for the pixels of a surface, reordered one pixel at a time.
    method ReadWlSurfaceTexture(src: seq<Byte>)
      requires Valid() && |src| % 4 == 0
      modifies this`size, this`data
      ensures Valid() && handed == old(handed) && size == |src|
      ensures if |src| == 0 then data == null else data != null && fresh(data) && data[..] == Swizzled(src)
    {
      if data != null {
        Reset();
      }
      EnsureAndSetDataSize(|src|);
      if data == null {
        return;
      }
      var dst: array<Byte> := data;
      var i := 0;
      while i < size
        modifies dst
        invariant i <= size == |src| == dst.Length && i % 4 == 0
        invariant forall k :: 0 <= k < i ==> dst[k] == src[Source(k)]
        decreases size - i
      {
        dst[i + 0] := src[i + 2];
        dst[i + 1] := src[i + 1];
        dst[i + 2] := src[i + 0];
        dst[i + 3] := src[i + 3];
        i := i + 4;
      }
      assert dst[..] == Swizzled(src);
    }

    // The block itself goes out, not a copy.
    method CreateBuffer() returns (b: array?<Byte>)
      requires Valid()
      modifies this`handed
      ensures Valid() && b == data
      ensures b != null ==> b in handed && handed[b] == b[..]
      ensures b != null && b !in old(handed) ==> handed == old(handed)[b := b[..]]
      ensures forall c :: c in old(handed) ==> c in handed && handed[c] == old(handed)[c]
    {
      b := data;
      if data != null {
        handed := handed[data := data[..]];
      }
    }
  }
}
