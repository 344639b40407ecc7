/** The growable buffer that keeps its header in front of its elements, in one allocation,
    and can pop after the element type has been forgotten. */
module FreestandingVec {
  import opened Layouts
  import opened Tally

  newtype Byte = x: int | 0 <= x < 256

  /** How an operation ends: `Overflow` is the panic of `reserve`, `OutOfMemory` the call of
      `handle_alloc_error`, which does not return. */
  datatype Outcome = Done | Overflow | OutOfMemory

  // ----- the stack that the bytes of a block stand for

  /** The `n` elements of `size` bytes that start at `base`, the bottom first. */
  function StackOf(bytes: seq<Byte>, base: nat, size: nat, n: nat): (s: seq<seq<Byte>>)
    requires Stride(base, size, n) <= |bytes|
    ensures |s| == n
  {
    if n == 0 then []
    else
      var at := Stride(base, size, n - 1);
      StackOf(bytes, base, size, n - 1) + [bytes[at..at + size]]
  }

  /** Bytes behind the elements do not matter. */
  lemma {:induction false} StackKeeps(a: seq<Byte>, b: seq<Byte>, base: nat, size: nat, n: nat)
    requires var end := Stride(base, size, n); end <= |a| && end <= |b| && a[..end] == b[..end]
    ensures StackOf(a, base, size, n) == StackOf(b, base, size, n)
  {
    if n > 0 {
      var end, at := Stride(base, size, n), Stride(base, size, n - 1);
      assert a[..at] == a[..end][..at] && b[..at] == b[..end][..at];
      assert a[at..at + size] == a[..end][at..] && b[at..at + size] == b[..end][at..];
      StackKeeps(a, b, base, size, n - 1);
    }
  }

  lemma {:induction false} StackAt(bytes: seq<Byte>, base: nat, size: nat, n: nat, i: nat)
    requires Stride(base, size, n) <= |bytes| && i < n
    ensures var at := Stride(base, size, i); at + size <= |bytes| && StackOf(bytes, base, size, n)[i] == bytes[at..at + size]
  {
    if i < n - 1 {
      StackAt(bytes, base, size, n - 1, i);
    }
  }

  /** What is written behind the elements is the new top. */
  lemma Topped(bytes: seq<Byte>, base: nat, n: nat, value: seq<Byte>)
    requires var at := Stride(base, |value|, n); at + |value| <= |bytes| && bytes[at..at + |value|] == value
    ensures Stride(base, |value|, n + 1) <= |bytes|
    ensures StackOf(bytes, base, |value|, n + 1) == StackOf(bytes, base, |value|, n) + [value]
  {
  }

  /** `M` is the metadata; the element type is the `t` of each operation, known to it only
      by its layout, just as each instance of the generic code knows it. */
  class Vec<M> {
    /** The layout of the header. */
    const header: Layout

    // The allocation: `isAllocated` says whether the pointer dangles.
    var isAllocated: bool
    var address: nat
    var block: array<Byte>

    // The header, which occupies the first `header.size` bytes of the block.
    var metadata: M
    var valueSize: nat
    var alignment: nat
    var len: nat
    var capacity: nat

    // What the allocator remembers of the live allocation.
    ghost var blockAlign: nat
    // The metadata dropped so far, the element type the header was made for, and the bytes
    // that reallocations have copied since the block was allocated.
    ghost var dropped: seq<M>
    ghost var elem: Layout
    ghost var copied: nat
    // How often the allocator has refused.
    ghost var refusals: nat

    // ----- invariants

    /** The allocator and the header agree on the live allocation. */
    ghost predicate Live()
      reads this
    {
      isAllocated ==>
        && block.Length == capacity <= USIZE_MAX
        && blockAlign == alignment > 0 && address % alignment == 0
    }

    /** The header describes elements of type `t`. */
    ghost predicate HeaderFor(t: Layout)
      reads this
    {
      && LayoutOk(header) && header.size > 0 && LayoutOk(t)
      && valueSize == t.size && alignment == SpaceAlign(header, t)
      && Offset(header, t, len) <= capacity
    }

    ghost predicate Valid()
      reads this
    {
      isAllocated && Live() && HeaderFor(elem)
    }

    // ----- contents

    /** Where the elements start, from the header alone. */
    ghost function Base(): (b: nat)
      requires Valid()
      reads this
      ensures b == SpaceSize(header, elem)
    {
      ErasedBaseIsSpaceSize(header, elem);
      ErasedBase(header, valueSize, alignment)
    }

    /** The offset of element `i`, from the header alone. */
    ghost function Position(i: nat): nat
      requires Valid()
      reads this
    {
      Stride(Base(), valueSize, i)
    }

    lemma ElementAt(i: nat)
      requires Valid() && i < len
      ensures Position(i) + valueSize <= block.Length
      ensures Contents()[i] == block[Position(i)..Position(i) + valueSize]
    {
      hide SpaceSize, SpaceAlign, LayoutOk, ErasedBase;
      StackAt(block[..], Base(), valueSize, len, i);
    }

    /** Every element is aligned, and lies inside the block, behind the header and clear of
        the other elements. */
    lemma ElementsInPlace(i: nat, j: nat)
      requires Valid() && i < len
      ensures (address + Position(i)) % elem.align == 0
      ensures header.size <= Position(i) && Position(i) + elem.size <= block.Length
      ensures i < j < len ==> Position(i) + elem.size <= Position(j)
    {
      hide SpaceSize, SpaceAlign, LayoutOk, ErasedBase;
      ElementsAlignedAndDisjoint(header, elem, address, i, len);
      if i < j < len {
        ElementsAlignedAndDisjoint(header, elem, address, i, j);
      }
    }

    /** The stack, as the header describes it. */
    ghost function Contents(): (s: seq<seq<Byte>>)
      requires Valid()
      reads this, block
      ensures |s| == len
    {
      StackOf(block[..], Base(), valueSize, len)
    }

    // ----- the allocator

    static method AnyMultiple(align: nat) returns (place: nat)
      requires align > 0
      ensures place % align == 0
    {
      var k: nat := *;
      MultipleModulo(k, align);
      Nonnegative(k, align);
      place := k * align;
    }

    /** `alloc`: a block at an address of its choice, or nothing. */
    method Alloc(size: nat, align: nat) returns (ok: bool)
      requires !isAllocated && size > 0 && align > 0
      modifies this`isAllocated, this`address, this`block, this`blockAlign, this`copied, this`refusals
      ensures ok ==> isAllocated && fresh(block) && block.Length == size && blockAlign == align
                     && address % align == 0 && copied == 0
      ensures !ok ==> !isAllocated
      ensures refusals == old(refusals) + if ok then 0 else 1
    {
      ok := *;
      if !ok {
        refusals := refusals + 1;
      } else {
        var place := AnyMultiple(align);
        isAllocated, address, block := true, place, new Byte[size];
        blockAlign, copied := align, 0;
      }
    }

    /** `realloc`: the caller has to name the size and alignment of the live allocation. */
    method Realloc(size: nat, align: nat, newSize: nat) returns (ok: bool)
      requires isAllocated && size == block.Length && align == blockAlign && align > 0 && newSize >= size
      modifies this`address, this`block, this`copied, this`refusals
      ensures refusals == old(refusals) + if ok then 0 else 1
      ensures ok ==> fresh(block) && block.Length == newSize && address % align == 0
                     && block[..size] == old(block[..]) && copied == old(copied) + size
      ensures !ok ==> block == old(block) && address == old(address) && copied == old(copied)
    {
      ok := *;
      if !ok {
        refusals := refusals + 1;
      } else {
        var place := AnyMultiple(align);
        var from, moved := block, new Byte[newSize];
        var i := 0;
        while i < size
          invariant 0 <= i <= size
          invariant moved[..i] == from[..i]
          modifies moved
        {
          moved[i] := from[i];
          i := i + 1;
        }
        address, block, copied := place, moved, copied + size;
      }
    }

    /** `dealloc`, under the same condition. */
    method Dealloc(size: nat, align: nat)
      requires isAllocated && size == block.Length && align == blockAlign
      modifies this`isAllocated
      ensures !isAllocated
    {
      isAllocated := false;
    }

    // ----- operations

    /** `deallocate`: drops the metadata. */
    method Deallocate()
      requires Live()
      modifies this`isAllocated, this`dropped
      ensures !isAllocated
      ensures dropped == old(dropped) + if old(isAllocated) then [metadata] else []
    {
      if !isAllocated {
        return;
      }
      dropped := dropped + [metadata];
      Dealloc(capacity, alignment);
    }

    /** `allocate`. */
    method Allocate(t: Layout) returns (size: nat, ok: bool)
      requires LayoutOk(header) && LayoutOk(t) && header.size > 0 && !isAllocated
      modifies this`isAllocated, this`address, this`block, this`blockAlign, this`copied, this`refusals
      ensures refusals == old(refusals) + if ok then 0 else 1
      ensures ok ==> isAllocated && fresh(block) && block.Length == size == MinCapacity(header, t) <= USIZE_MAX
                     && blockAlign == SpaceAlign(header, t) && address % blockAlign == 0 && copied == 0
      ensures !ok ==> !isAllocated
    {
      SpaceIs(header, t);
      size := MinCapacity(header, t);
      ok := Alloc(size, SpaceAlign(header, t));
    }

    /** `reserve`: room for `additional` bytes behind the `len` elements of type `t`. */
    method Reserve(t: Layout, additional: nat) returns (r: Outcome)
      requires Live() && isAllocated && LayoutOk(header) && LayoutOk(t) && alignment == SpaceAlign(header, t)
      requires Offset(header, t, len) <= USIZE_MAX
      modifies this`address, this`block, this`copied, this`capacity, this`refusals
      ensures Live()
      ensures additional == 0 || Offset(header, t, len) + additional <= old(capacity) ==> r == Done
      ensures refusals == old(refusals) + if r == OutOfMemory then 1 else 0
      ensures old(Valid()) ==> Valid() && Contents() == old(Contents())
      ensures r == Overflow <==> additional > 0 && Offset(header, t, len) + additional > USIZE_MAX
      ensures r != Done ==> block == old(block) && Cost(capacity, copied) == old(Cost(capacity, copied))
      ensures r == Done ==>
                && old(capacity) <= capacity == block.Length
                && (block == old(block) || fresh(block)) && block[..old(capacity)] == old(block[..])
                && (additional == 0 || Offset(header, t, len) + additional <= capacity)
                && Cost(capacity, copied)
                   == if additional == 0 then old(Cost(capacity, copied))
                      else Reserved(old(Cost(capacity, copied)), Offset(header, t, len) + additional)
    {
      if additional == 0 {
        return Done;
      }
      hide StackOf, LayoutOk, ErasedBase;
      ghost var before := block[..];
      StrideIs(SpaceSize(header, t), t.size, len);
      var required := len * t.size + SpaceSize(header, t) + additional;
      if required > USIZE_MAX {
        return Overflow;
      }
      var ogCapacity := capacity;
      if ogCapacity >= required {
        return Done;
      }
      var newCapacity := Grown(ogCapacity, required);
      var ok := Realloc(ogCapacity, SpaceAlign(header, t), newCapacity);
      if !ok {
        return OutOfMemory;
      }
      capacity := newCapacity;
      assert block[..ogCapacity] == before;
      if old(Valid()) {
        StackKeeps(before, block[..], Base(), valueSize, len);
      }
      return Done;
    }

    /** `init`: makes an empty vec of element type `t`, reusing the allocation if it can.  The
        element type may change if the vec is empty; elements of a vec that is not are leaked. */
    method Init(t: Layout, m: M) returns (r: Outcome)
      requires LayoutOk(header) && LayoutOk(t) && header.size > 0
      requires isAllocated ==> Valid() && (len == 0 || elem == t)
      modifies this
      ensures r != Overflow && refusals == old(refusals) + if r == OutOfMemory then 1 else 0
      ensures r == Done ==> Valid() && elem == t && Contents() == [] && metadata == m
      ensures r == Done ==> (block == old(block) && old(isAllocated)) || fresh(block)
      ensures r == Done ==> dropped == old(dropped) + if old(isAllocated) then [old(metadata)] else []
      ensures !old(isAllocated) && r == Done ==> Cost(capacity, copied) == Pushed(header, t, 0)
      ensures old(isAllocated) && old(len) == 0 && r == Done ==>
                capacity == if old(alignment) == SpaceAlign(header, t) then Reused(header, t, old(capacity))
                            else MinCapacity(header, t)
    {
      MinCapacityIs(header, t);
      hide SpaceSize, SpaceAlign, MinCapacity, StackOf, ErasedBase, LayoutOk, Pushed, Stride, Reused;
      r := Refit(t);
      if r != Done {
        return;
      }
      var wasAllocated := isAllocated;
      var size: nat;
      if wasAllocated {
        size := capacity;
      } else {
        var ok;
        size, ok := Allocate(t);
        if !ok {
          return OutOfMemory;
        }
      }
      if wasAllocated {
        dropped := dropped + [metadata];
      }
      metadata, valueSize, alignment, len, capacity := m, t.size, SpaceAlign(header, t), 0, size;
      elem := t;
      return Done;
    }

    /** The first half of `init`: gives up an allocation of the wrong alignment, and enlarges
        one that is smaller than `MIN_NON_ZERO_CAP`. */
    method Refit(t: Layout) returns (r: Outcome)
      requires LayoutOk(header) && LayoutOk(t) && header.size > 0
      requires isAllocated ==> Valid() && (len == 0 || elem == t)
      modifies this`isAllocated, this`address, this`block, this`copied, this`capacity, this`dropped, this`refusals
      ensures r != Overflow && refusals == old(refusals) + if r == OutOfMemory then 1 else 0
      ensures r == Done ==>
                && isAllocated == (old(isAllocated) && alignment == SpaceAlign(header, t))
                && dropped == old(dropped) + (if old(isAllocated) && !isAllocated then [metadata] else [])
                && (isAllocated ==> Live() && SpaceSize(header, t) <= capacity && (block == old(block) || fresh(block))
                                    && (len == 0 ==> capacity == Reused(header, t, old(capacity))))
    {
      MinCapacityIs(header, t);
      hide SpaceSize, SpaceAlign, MinCapacity, StackOf, ErasedBase, LayoutOk;
      if isAllocated && alignment != SpaceAlign(header, t) {
        Deallocate();
      }
      if isAllocated && capacity < MinCapacity(header, t) {
        RoomFor(t);
        r := Reserve(t, MinCapacity(header, t) - capacity);
        return;
      }
      return Done;
    }

    /** The elements that `init` leaks, if any, had room in the old capacity. */
    lemma RoomFor(t: Layout)
      requires Valid() && LayoutOk(t) && (len == 0 || elem == t) && capacity < MinCapacity(header, t)
      ensures SpaceSize(header, t) <= Offset(header, t, len)
      ensures Offset(header, t, len) + (MinCapacity(header, t) - capacity) <= USIZE_MAX
    {
      hide ErasedBase;
      MinCapacityIs(header, t);
      hide SpaceSize, SpaceAlign, MinCapacity, LayoutOk;
      if len > 0 {
        StrideBefore(SpaceSize(header, t), t.size, 0, len);
      }
    }

    /** A dangling vec, which only `Init` may be called on. */
    constructor (h: Layout, m: M)
      ensures header == h && !isAllocated && dropped == [] && refusals == 0
    {
      header := h;
      isAllocated, address, block := false, 0, new Byte[0];
      metadata, valueSize, alignment, len, capacity := m, 0, 1, 0, 0;
      blockAlign, dropped, elem, copied, refusals := 1, [], UNIT, 0, 0;
    }

    /** `new`. */
    static method New(h: Layout, t: Layout, m: M) returns (v: Vec<M>, r: Outcome)
      requires LayoutOk(h) && LayoutOk(t) && h.size > 0
      ensures fresh(v) && r != Overflow && v.refusals == if r == OutOfMemory then 1 else 0
      ensures r == Done ==> v.Valid() && fresh(v.block) && v.header == h && v.elem == t
                            && v.Contents() == [] && v.metadata == m && v.dropped == []
                            && Cost(v.capacity, v.copied) == Pushed(h, t, 0)
    {
      v := new Vec(h, m);
      r := v.Init(t, m);
    }

    /** `ptr::write` at offset `at`. */
    method Write(at: nat, value: seq<Byte>)
      requires at + |value| <= block.Length
      modifies block
      ensures block[..at] == old(block[..at]) && block[at..at + |value|] == value
    {
      var i := 0;
      while i < |value|
        invariant 0 <= i <= |value|
        invariant block[..at] == old(block[..at])
        invariant block[at..at + i] == value[..i]
      {
        block[at + i] := value[i];
        i := i + 1;
      }
    }

    /** `push`: writes the value where the element type says that element `len` goes. */
    method Push(t: Layout, value: seq<Byte>) returns (r: Outcome)
      requires Valid() && HeaderFor(t) && elem == t && |value| == t.size
      modifies this`address, this`block, this`copied, this`capacity, this`refusals, this`len, block
      ensures Valid()
      ensures t.size == 0 || Offset(header, t, old(len) + 1) <= old(capacity) ==> r == Done
      ensures refusals == old(refusals) + if r == OutOfMemory then 1 else 0
      ensures r == Done ==> Contents() == old(Contents()) + [value]
      ensures r != Done ==> Contents() == old(Contents())
      ensures r == Overflow <==> t.size > 0 && Offset(header, t, old(len) + 1) > USIZE_MAX
      ensures block == old(block) || fresh(block)
      ensures r == Done ==>
                Cost(capacity, copied) == if t.size == 0 then old(Cost(capacity, copied))
                                          else Reserved(old(Cost(capacity, copied)), Offset(header, t, len))
      ensures r == Done && old(Cost(capacity, copied) == Pushed(header, t, len)) ==>
                Cost(capacity, copied) == Pushed(header, t, len)
    {
      hide SpaceSize, SpaceAlign, StackOf, ErasedBase, Reserved, LayoutOk, Pushed;
      ghost var base, n := SpaceSize(header, t), len;
      assert Offset(header, t, n + 1) == Offset(header, t, n) + t.size;
      StrideIs(base, t.size, n);
      PushedNext(header, t, n);
      r := Reserve(t, t.size);
      if r != Done {
        return;
      }
      ghost var grown := block[..];
      Write(SpaceSize(header, t) + len * t.size, value);
      len := len + 1;
      StackKeeps(grown, block[..], base, t.size, n);
      Topped(block[..], base, n, value);
    }

    /** `pop`: works out, from the header alone, the offset of the last element, which it
        hands to the caller's closure. */
    method Pop() returns (r: Option<nat>)
      requires Valid()
      modifies this`len
      ensures Valid()
      ensures r.None? <==> old(Contents()) == []
      ensures r.None? ==> len == old(len)
      ensures r.Some? ==>
                && header.size <= r.value && r.value + valueSize <= block.Length
                && Contents() + [block[r.value..r.value + valueSize]] == old(Contents())
                && (address + r.value) % elem.align == 0
    {
      if len == 0 {
        return None;
      }
      hide SpaceSize, SpaceAlign, LayoutOk;
      ErasedBaseIsSpaceSize(header, elem);
      ElementsAlignedAndDisjoint(header, elem, address, len - 1, len);
      hide ErasedBase;
      StrideIs(Base(), valueSize, len - 1);
      var last := len - 1;
      var base := ErasedBase(header, valueSize, alignment);
      len := last;
      return Some(base + last * valueSize);
    }

    /** `Drop`: the elements are not dropped. */
    method Drop()
      requires Live()
      modifies this`isAllocated, this`dropped
      ensures !isAllocated
      ensures dropped == old(dropped) + if old(isAllocated) then [metadata] else []
    {
      Deallocate();
    }
  }
}
