/** `cyanide::memory_protection`: a scoped guard that changes the protection
    of a memory range and puts the old protection back when it is
    destroyed.  The C++ destructor becomes the method `Destroy`, move
    construction the constructor `Move`, the friend `swap` the static method
    `Swap`. */
module Protection {
  import opened Base
  import opened Memory

  /** `cyanide::protection_type`. */
  datatype ProtectionType = ReadWrite | ReadWriteExecute

  /** The flag the constructor requests for each protection type. */
  function PageFlags(t: ProtectionType): (flag: nat)
    ensures flag == PAGE_READWRITE || flag == PAGE_EXECUTE_READWRITE
    ensures flag == PAGE_EXECUTE_READWRITE <==> t == ReadWriteExecute
  {
    match t
    case ReadWrite => PAGE_READWRITE
    case ReadWriteExecute => PAGE_EXECUTE_READWRITE
  }

  /** The protection map once a guard over `[address, address + size)` has
      been acquired with `t` and destroyed again: the range carries the flag
      its first address had before. */
  function AcquireRelease(prot: map<nat, nat>, address: nat, size: nat, t: ProtectionType): (r: map<nat, nat>)
    requires Mapped(prot, address, size)
    ensures r.Keys == prot.Keys
    ensures forall k :: k in prot && address <= k < address + size ==> r[k] == prot[address]
    ensures forall k :: k in prot && !(address <= k < address + size) ==> r[k] == prot[k]
  {
    SetRange(SetRange(prot, address, size, PageFlags(t)), address, size, prot[address])
  }

  class MemoryProtection {
    var address: nat
    var size: nat
    var originalProtection: nat

    /** The moved-from state: null address, no size, no flag. */
    predicate Empty()
      reads this
    {
      address == 0 && size == 0 && originalProtection == 0
    }

    constructor Init(address: nat, size: nat, originalProtection: nat)
      ensures this.address == address && this.size == size
      ensures this.originalProtection == originalProtection
    {
      this.address := address;
      this.size := size;
      this.originalProtection := originalProtection;
    }

    /** The constructor: applies `t` to the range and remembers the old flag;
        throws `runtime_error` when `VirtualProtect` fails, leaving no guard. */
    static method Acquire(space: AddressSpace, address: nat, size: nat, t: ProtectionType)
      returns (r: Result<MemoryProtection>)
      requires space.Valid()
      modifies space
      ensures space.Valid()
      ensures r.Success? <==> Mapped(old(space.protection), address, size)
      ensures r.Failure? ==> r.error == RuntimeError && space.protection == old(space.protection)
      ensures r.Success? ==>
        && fresh(r.value)
        && r.value.address == address && r.value.size == size
        && r.value.originalProtection == old(space.protection)[address]
        && space.protection == SetRange(old(space.protection), address, size, PageFlags(t))
    {
      var ok, original := space.VirtualProtect(address, size, PageFlags(t));
      if !ok {
        return Failure(RuntimeError);
      }
      var guard := new MemoryProtection.Init(address, size, original);
      return Success(guard);
    }

    /** The destructor: nothing for a moved-from guard; otherwise the
        original flag is reapplied to the range and a failure is ignored. */
    method Destroy(space: AddressSpace)
      requires space.Valid()
      modifies space
      ensures space.Valid()
      ensures address == 0 ==> space.protection == old(space.protection)
      ensures address != 0 ==>
        space.protection ==
          if Mapped(old(space.protection), address, size)
          then SetRange(old(space.protection), address, size, originalProtection)
          else old(space.protection)
    {
      if address == 0 {
        return;
      }
      var _, _ := space.VirtualProtect(address, size, originalProtection);
    }

    /** Move construction: takes all three fields and leaves `other`
        empty. */
    constructor Move(other: MemoryProtection)
      modifies other
      ensures address == old(other.address) && size == old(other.size)
      ensures originalProtection == old(other.originalProtection)
      ensures other.Empty()
    {
      address := other.address;
      size := other.size;
      originalProtection := other.originalProtection;
      new;
      other.address, other.size, other.originalProtection := 0, 0, 0;
    }

    /** The friend `swap`: exchanges the three fields. */
    static method Swap(lhs: MemoryProtection, rhs: MemoryProtection)
      modifies lhs, rhs
      ensures lhs.address == old(rhs.address) && rhs.address == old(lhs.address)
      ensures lhs.size == old(rhs.size) && rhs.size == old(lhs.size)
      ensures lhs.originalProtection == old(rhs.originalProtection)
      ensures rhs.originalProtection == old(lhs.originalProtection)
    {
      lhs.address, rhs.address := rhs.address, lhs.address;
      lhs.size, rhs.size := rhs.size, lhs.size;
      lhs.originalProtection, rhs.originalProtection := rhs.originalProtection, lhs.originalProtection;
    }

    /** Move assignment: move `other` into a temporary, swap it with this
        guard, and destroy the temporary, which restores the range this
        guard held before. */
    method MoveAssign(other: MemoryProtection, space: AddressSpace)
      requires space.Valid()
      modifies this, other, space
      ensures space.Valid()
      ensures address == old(other.address) && size == old(other.size)
      ensures originalProtection == old(other.originalProtection)
      ensures other != this ==> other.Empty()
      ensures other != this && old(address) != 0 ==>
        space.protection ==
          if Mapped(old(space.protection), old(address), old(size))
          then SetRange(old(space.protection), old(address), old(size), old(originalProtection))
          else old(space.protection)
      ensures (other == this || old(address) == 0) ==> space.protection == old(space.protection)
    {
      var tmp := new MemoryProtection.Move(other);
      Swap(tmp, this);
      tmp.Destroy(space);
    }
  }

  // ---------------------------------------------------------------------
  // Properties

  /** A guard acquired and destroyed over a range of one protection leaves
      every flag as it found it; over a range of mixed protections it does
      not, because only the first address's flag is remembered. */
  lemma GuardRestoresUniformRange(prot: map<nat, nat>, address: nat, size: nat, t: ProtectionType)
    requires Mapped(prot, address, size)
    ensures AcquireRelease(prot, address, size, t) == prot <==> Uniform(prot, address, size)
  {
    RestoreIffUniform(prot, address, size, PageFlags(t));
  }
}
