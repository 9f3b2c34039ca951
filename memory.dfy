/** The process memory the patch and the protection guard work on: a byte
    array indexed by address, and the protection flag of every mapped
    address.  Address 0 is the null pointer and is never mapped.
    `VirtualProtect` is modelled by what the library relies on: it fails
    when part of the range is not mapped; otherwise it sets the whole range
    to the new flag and reports the flag the first address had. */
module Memory {
  import opened Base

  /** `PAGE_READWRITE` and `PAGE_EXECUTE_READWRITE`, the two flags the
      library requests. */
  const PAGE_READWRITE: nat := 0x04
  const PAGE_EXECUTE_READWRITE: nat := 0x40

  /** `memcpy(at, data, |data|)` on a byte image. */
  function Overwrite(mem: seq<bv8>, at: nat, data: seq<bv8>): (r: seq<bv8>)
    requires at + |data| <= |mem|
    ensures |r| == |mem|
    ensures r[at .. at + |data|] == data
    ensures forall k :: 0 <= k < |mem| && !(at <= k < at + |data|) ==> r[k] == mem[k]
  {
    mem[..at] + data + mem[at + |data|..]
  }

  /** The protection map after every address of `[at, at + size)` is set to
      `flag`. */
  function SetRange(prot: map<nat, nat>, at: nat, size: nat, flag: nat): (r: map<nat, nat>)
    ensures r.Keys == prot.Keys
    ensures forall k :: k in prot && at <= k < at + size ==> r[k] == flag
    ensures forall k :: k in prot && !(at <= k < at + size) ==> r[k] == prot[k]
  {
    map k | k in prot :: if at <= k < at + size then flag else prot[k]
  }

  /** Whether `VirtualProtect` accepts the range: its first address and all
      the others are mapped. */
  predicate Mapped(prot: map<nat, nat>, at: nat, size: nat) {
    at in prot && forall k :: at <= k < at + size ==> k in prot
  }

  /** Every address of the range has the same flag as the first one. */
  predicate Uniform(prot: map<nat, nat>, at: nat, size: nat)
    requires Mapped(prot, at, size)
  {
    forall k :: at <= k < at + size ==> prot[k] == prot[at]
  }

  class AddressSpace {
    const bytes: array<bv8>
    var protection: map<nat, nat>

    ghost predicate Valid()
      reads this
    {
      0 !in protection
    }

    constructor (bytes: array<bv8>, protection: map<nat, nat>)
      requires 0 !in protection
      ensures Valid() && this.bytes == bytes && this.protection == protection
    {
      this.bytes := bytes;
      this.protection := protection;
    }

    /** `VirtualProtect(address, size, newProtect, &oldProtect) != 0`. */
    method VirtualProtect(address: nat, size: nat, newProtect: nat) returns (ok: bool, oldProtect: nat)
      requires Valid()
      modifies this
      ensures Valid()
      ensures ok == Mapped(old(protection), address, size)
      ensures ok ==> oldProtect == old(protection)[address]
      ensures protection == if ok then SetRange(old(protection), address, size, newProtect) else old(protection)
    {
      ok := Mapped(protection, address, size);
      oldProtect := 0;
      if ok {
        oldProtect := protection[address];
        protection := SetRange(protection, address, size, newProtect);
      }
    }

    /** `std::copy_n(address, n, out)`: the `n` bytes at `address`, read
        one at a time. */
    method Read(address: nat, n: nat) returns (r: seq<bv8>)
      requires address + n <= bytes.Length
      ensures r == bytes[address .. address + n]
    {
      r := [];
      var i := 0;
      while i < n
        invariant 0 <= i <= n
        invariant r == bytes[address .. address + i]
      {
        r := r + [bytes[address + i]];
        i := i + 1;
      }
    }

    /** `std::memcpy(address, data, |data|)`; writing through the null
        pointer is not allowed. */
    method Write(address: nat, data: seq<bv8>)
      requires address + |data| <= bytes.Length
      requires address != 0 || |data| == 0
      modifies bytes
      ensures bytes[..] == Overwrite(old(bytes[..]), address, data)
    {
      var i := 0;
      while i < |data|
        invariant 0 <= i <= |data|
        invariant forall k :: 0 <= k < bytes.Length && !(address <= k < address + i) ==> bytes[k] == old(bytes[k])
        invariant forall j :: 0 <= j < i ==> bytes[address + j] == data[j]
      {
        bytes[address + i] := data[i];
        i := i + 1;
      }
      assert bytes[..] == Overwrite(old(bytes[..]), address, data) by {
        var w := Overwrite(old(bytes[..]), address, data);
        forall k | 0 <= k < bytes.Length ensures bytes[k] == w[k] {
          if address <= k < address + |data| {
            assert w[address .. address + |data|][k - address] == data[k - address];
          }
        }
      }
    }
  }

  // ---------------------------------------------------------------------
  // Properties

  /** Writing back the bytes an overwrite replaced gives the original image:
      the round trip a patch relies on. */
  lemma OverwriteRoundTrip(mem: seq<bv8>, at: nat, data: seq<bv8>)
    requires at + |data| <= |mem|
    ensures Overwrite(Overwrite(mem, at, data), at, mem[at .. at + |data|]) == mem
  {
    var once := Overwrite(mem, at, data);
    var back := Overwrite(once, at, mem[at .. at + |data|]);
    forall k | 0 <= k < |mem| ensures back[k] == mem[k] {
      if at <= k < at + |data| {
        assert back[at .. at + |data|][k - at] == mem[at .. at + |data|][k - at];
      }
    }
  }

  /** Setting a range to a flag and then to the flag its first address had
      restores the map exactly when the range was uniform. */
  lemma RestoreIffUniform(prot: map<nat, nat>, at: nat, size: nat, flag: nat)
    requires Mapped(prot, at, size)
    ensures SetRange(SetRange(prot, at, size, flag), at, size, prot[at]) == prot <==> Uniform(prot, at, size)
  {
    var back := SetRange(SetRange(prot, at, size, flag), at, size, prot[at]);
    if Uniform(prot, at, size) {
      assert back.Keys == prot.Keys;
      forall k | k in prot ensures back[k] == prot[k] {
      }
    } else {
      var k :| at <= k < at + size && prot[k] != prot[at];
      assert back[k] == prot[at];
    }
  }
}
