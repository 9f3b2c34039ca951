/** `cyanide::patch<Container>`: overwrites bytes at an address, keeps the
    bytes it replaced, and writes them back when destroyed, optionally
    inside a read-write protection guard.  `Container` is either
    `std::vector` (`Dynamic`: the saved bytes are appended) or the fixed
    array `make_static_patch` chooses (`Fixed(n)`: an `n`-byte array,
    zero-initialised and filled from its beginning). */
module Patches {
  import opened Base
  import opened Memory
  import opened Protection

  datatype Storage = Dynamic | Fixed(n: nat)

  function Zeros(n: nat): (r: seq<bv8>)
    ensures |r| == n && forall k :: 0 <= k < n ==> r[k] == 0
  {
    seq(n, _ => 0)
  }

  /** The container `original_bytes_` ends up as after `copy_n` of the
      replaced bytes `s` into it. */
  function Saved(storage: Storage, s: seq<bv8>): (r: seq<bv8>)
    requires storage.Fixed? ==> |s| <= storage.n
    ensures |r| == if storage.Fixed? then storage.n else |s|
    ensures r[..|s|] == s
    ensures forall k :: |s| <= k < |r| ==> r[k] == 0
  {
    if storage.Fixed? then s + Zeros(storage.n - |s|) else s
  }

  class Patch {
    const storage: Storage
    var address: nat
    var originalBytes: seq<bv8>
    var unprotect: bool

    /** A fixed array always holds exactly its `n` bytes. */
    ghost predicate Valid()
      reads this
    {
      storage.Fixed? ==> |originalBytes| == storage.n
    }

    /** What the destructor needs: the saved bytes fit in memory, and
        without a guard (which would fail first on the null page) they are
        not written through the null pointer. */
    predicate CanDestroy(space: AddressSpace)
      reads this
    {
      && address + |originalBytes| <= space.bytes.Length
      && (!unprotect ==> address != 0 || |originalBytes| == 0)
    }

    constructor Init(storage: Storage, address: nat, originalBytes: seq<bv8>, unprotect: bool)
      requires storage.Fixed? ==> |originalBytes| == storage.n
      ensures Valid()
      ensures this.storage == storage && this.address == address
      ensures this.originalBytes == originalBytes && this.unprotect == unprotect
    {
      this.storage := storage;
      this.address := address;
      this.originalBytes := originalBytes;
      this.unprotect := unprotect;
    }

    /** The constructor.  With `unprotect`, a read-write guard over the
        patched range is taken first (a failure throws `runtime_error`
        before any byte is read or written) and released at the end; then
        the bytes at `address` are saved and overwritten. */
    static method Create(space: AddressSpace, address: nat, patchBytes: seq<bv8>, unprotect: bool,
                         storage: Storage)
      returns (r: Result<Patch>)
      requires space.Valid()
      requires address + |patchBytes| <= space.bytes.Length
      requires !unprotect ==> address != 0 || |patchBytes| == 0
      requires storage.Fixed? ==> |patchBytes| <= storage.n
      modifies space, space.bytes
      ensures space.Valid()
      ensures r.Success? <==> !unprotect || Mapped(old(space.protection), address, |patchBytes|)
      ensures r.Failure? ==>
        && r.error == RuntimeError
        && space.bytes[..] == old(space.bytes[..])
        && space.protection == old(space.protection)
      ensures r.Success? ==>
        && fresh(r.value) && r.value.Valid()
        && r.value.storage == storage && r.value.address == address && r.value.unprotect == unprotect
        && r.value.originalBytes == Saved(storage, old(space.bytes[address .. address + |patchBytes|]))
        && space.bytes[..] == Overwrite(old(space.bytes[..]), address, patchBytes)
        && space.protection ==
             if unprotect then AcquireRelease(old(space.protection), address, |patchBytes|, ReadWrite)
             else old(space.protection)
    {
      var guard: MemoryProtection? := null;
      if unprotect {
        var acquired := MemoryProtection.Acquire(space, address, |patchBytes|, ReadWrite);
        if acquired.Failure? {
          return Failure(acquired.error);
        }
        guard := acquired.value;
      }
      var replaced := space.Read(address, |patchBytes|);
      var original := if storage.Fixed? then replaced + Zeros(storage.n - |replaced|) else replaced;
      space.Write(address, patchBytes);
      if guard != null {
        guard.Destroy(space);
      }
      var p := new Patch.Init(storage, address, original, unprotect);
      return Success(p);
    }

    /** The destructor: with `unprotect`, a guard over the saved range is
        taken (its failure throws out of a destructor, which terminates the
        program: `terminated`), then the saved bytes are written back. */
    method Destroy(space: AddressSpace) returns (terminated: bool)
      requires space.Valid() && CanDestroy(space)
      modifies space, space.bytes
      ensures space.Valid()
      ensures terminated <==> unprotect && !Mapped(old(space.protection), address, |originalBytes|)
      ensures terminated ==> space.bytes[..] == old(space.bytes[..]) && space.protection == old(space.protection)
      ensures !terminated ==>
        && space.bytes[..] == Overwrite(old(space.bytes[..]), address, originalBytes)
        && space.protection ==
             if unprotect then AcquireRelease(old(space.protection), address, |originalBytes|, ReadWrite)
             else old(space.protection)
    {
      var guard: MemoryProtection? := null;
      if unprotect {
        var acquired := MemoryProtection.Acquire(space, address, |originalBytes|, ReadWrite);
        if acquired.Failure? {
          return true;
        }
        guard := acquired.value;
      }
      space.Write(address, originalBytes);
      if guard != null {
        guard.Destroy(space);
      }
      return false;
    }

    /** The destructor with the null check the protection guard has: a
        moved-from patch restores nothing. */
    method DestroyIntended(space: AddressSpace) returns (terminated: bool)
      requires space.Valid() && address + |originalBytes| <= space.bytes.Length
      modifies space, space.bytes
      ensures space.Valid()
      ensures address == 0 ==>
        !terminated && space.bytes[..] == old(space.bytes[..]) && space.protection == old(space.protection)
      ensures address != 0 ==>
        && (terminated <==> unprotect && !Mapped(old(space.protection), address, |originalBytes|))
        && (!terminated ==> space.bytes[..] == Overwrite(old(space.bytes[..]), address, originalBytes))
        && (!terminated ==>
              space.protection ==
                if unprotect then AcquireRelease(old(space.protection), address, |originalBytes|, ReadWrite)
                else old(space.protection))
        && (terminated ==> space.bytes[..] == old(space.bytes[..]) && space.protection == old(space.protection))
    {
      if address == 0 {
        return false;
      }
      terminated := Destroy(space);
    }

    /** Move construction: takes the address, the saved bytes and the flag;
        `other` is left with a null address and no guard.  A moved-from
        vector is empty, but a moved-from fixed array keeps its bytes. */
    constructor Move(other: Patch)
      requires other.Valid()
      modifies other
      ensures Valid() && other.Valid()
      ensures storage == other.storage
      ensures address == old(other.address) && originalBytes == old(other.originalBytes)
      ensures unprotect == old(other.unprotect)
      ensures other.address == 0 && !other.unprotect
      ensures other.originalBytes == if other.storage.Dynamic? then [] else old(other.originalBytes)
    {
      storage := other.storage;
      address := other.address;
      originalBytes := other.originalBytes;
      unprotect := other.unprotect;
      new;
      other.address := 0;
      other.unprotect := false;
      if other.storage.Dynamic? {
        other.originalBytes := [];
      }
    }

    /** The friend `swap` of two patches of the same type. */
    static method Swap(lhs: Patch, rhs: Patch)
      requires lhs.storage == rhs.storage && lhs.Valid() && rhs.Valid()
      modifies lhs, rhs
      ensures lhs.Valid() && rhs.Valid()
      ensures lhs.address == old(rhs.address) && rhs.address == old(lhs.address)
      ensures lhs.originalBytes == old(rhs.originalBytes) && rhs.originalBytes == old(lhs.originalBytes)
      ensures lhs.unprotect == old(rhs.unprotect) && rhs.unprotect == old(lhs.unprotect)
    {
      lhs.address, rhs.address := rhs.address, lhs.address;
      lhs.originalBytes, rhs.originalBytes := rhs.originalBytes, lhs.originalBytes;
      lhs.unprotect, rhs.unprotect := rhs.unprotect, lhs.unprotect;
    }

    /** Move assignment: `other` moves into a temporary, which is swapped
        with this patch and destroyed, so the patch this object held before
        is reverted. */
    method MoveAssign(other: Patch, space: AddressSpace) returns (terminated: bool)
      requires other != this && other.storage == storage && Valid() && other.Valid()
      requires space.Valid() && CanDestroy(space)
      modifies this, other, space, space.bytes
      ensures Valid() && other.Valid() && space.Valid()
      ensures address == old(other.address) && originalBytes == old(other.originalBytes)
      ensures unprotect == old(other.unprotect)
      ensures other.address == 0 && !other.unprotect
      ensures other.originalBytes == if storage.Dynamic? then [] else old(other.originalBytes)
      ensures terminated <==> old(unprotect) && !Mapped(old(space.protection), old(address), old(|originalBytes|))
      ensures !terminated ==>
        space.bytes[..] == Overwrite(old(space.bytes[..]), old(address), old(originalBytes))
      ensures !terminated ==>
        space.protection ==
          if old(unprotect) then AcquireRelease(old(space.protection), old(address), old(|originalBytes|), ReadWrite)
          else old(space.protection)
      ensures terminated ==> space.bytes[..] == old(space.bytes[..]) && space.protection == old(space.protection)
    {
      var tmp := new Patch.Move(other);
      Swap(tmp, this);
      terminated := tmp.Destroy(space);
    }
  }

  /** `make_static_patch(address, bytes...)`: at least one byte, a fixed
      array of exactly that many saved bytes, and the default `unprotect`. */
  method MakeStaticPatch(space: AddressSpace, address: nat, patchBytes: seq<bv8>) returns (r: Result<Patch>)
    requires |patchBytes| > 0
    requires space.Valid() && address + |patchBytes| <= space.bytes.Length
    modifies space, space.bytes
    ensures space.Valid()
    ensures r.Success? <==> Mapped(old(space.protection), address, |patchBytes|)
    ensures r.Failure? ==>
      && r.error == RuntimeError
      && space.bytes[..] == old(space.bytes[..])
      && space.protection == old(space.protection)
    ensures r.Success? ==>
      && fresh(r.value) && r.value.Valid()
      && r.value.storage == Fixed(|patchBytes|)
      && r.value.address == address && r.value.unprotect
      && r.value.originalBytes == old(space.bytes[address .. address + |patchBytes|])
      && space.bytes[..] == Overwrite(old(space.bytes[..]), address, patchBytes)
      && space.protection == AcquireRelease(old(space.protection), address, |patchBytes|, ReadWrite)
  {
    r := Patch.Create(space, address, patchBytes, true, Fixed(|patchBytes|));
    if r.Success? {
      ExactFixedSavesReplaced(|patchBytes|, old(space.bytes[address .. address + |patchBytes|]));
    }
  }

  /** Moving out of a patch over a fixed array leaves it holding its bytes
      with a null address and no guard, so the destructor as written would
      copy them to address 0. */
  method MoveLeavesStaticPatchAtNull(p: Patch, space: AddressSpace) returns (q: Patch)
    requires p.Valid() && p.storage.Fixed? && p.storage.n > 0
    modifies p
    ensures q.originalBytes == old(p.originalBytes) && q.address == old(p.address)
    ensures p.address == 0 && |p.originalBytes| == p.storage.n && !p.CanDestroy(space)
  {
    q := new Patch.Move(p);
  }

  /** A patch applied and later destroyed, as a scope holding it does: it
      is created unless its guard cannot be taken; its destructor then
      cannot fail, every byte is as before, and the protection is as before
      unless a guard was taken over a range of mixed protections. */
  method ScopedPatch(space: AddressSpace, address: nat, patchBytes: seq<bv8>, unprotect: bool)
    returns (created: bool)
    requires space.Valid()
    requires address + |patchBytes| <= space.bytes.Length
    requires !unprotect ==> address != 0 || |patchBytes| == 0
    modifies space, space.bytes
    ensures space.Valid()
    ensures created <==> !unprotect || Mapped(old(space.protection), address, |patchBytes|)
    ensures space.bytes[..] == old(space.bytes[..])
    ensures !unprotect || !created || Uniform(old(space.protection), address, |patchBytes|) ==>
      space.protection == old(space.protection)
  {
    ghost var mem := space.bytes[..];
    ghost var prot := space.protection;
    var r := Patch.Create(space, address, patchBytes, unprotect, Dynamic);
    if r.Failure? {
      return false;
    }
    var p := r.value;
    assert p.originalBytes == mem[address .. address + |patchBytes|];
    var terminated := p.Destroy(space);
    assert !terminated;
    OverwriteRoundTrip(mem, address, patchBytes);
    if unprotect && Uniform(prot, address, |patchBytes|) {
      GuardRestoresUniformRange(prot, address, |patchBytes|, ReadWrite);
    }
    return true;
  }

  // ---------------------------------------------------------------------
  // Properties

  /** A fixed array sized to the patch holds exactly the replaced bytes; a
      larger one holds them followed by zeros, which the destructor writes
      back past the patched range. */
  lemma ExactFixedSavesReplaced(n: nat, replaced: seq<bv8>)
    requires |replaced| <= n
    ensures Saved(Fixed(n), replaced) == replaced <==> |replaced| == n
    ensures Saved(Dynamic, replaced) == replaced
  {
    if |replaced| == n {
      assert Zeros(0) == [];
    }
  }
}
