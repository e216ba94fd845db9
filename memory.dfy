/**
 * A process's address space as the accessor sees it: a partial map from each
 * 64-bit address to the byte stored there. An address that is not in the map
 * is not readable or writable, and the OS reports an access to it as a failure.
 */
module Memory {
  import opened Ints
  import opened Results
  import opened LittleEndian

  type AddressSpace = map<u64, u8>

  /** Every address of the n bytes starting at addr is mapped. */
  predicate Mapped(m: AddressSpace, addr: int, n: nat) {
    forall a: int :: addr <= a < addr + n ==> a in m
  }

  /** The n bytes starting at addr, in address order. */
  function Load(m: AddressSpace, addr: int, n: nat): (r: seq<u8>)
    requires Mapped(m, addr, n)
    ensures |r| == n
  {
    seq(n, k requires 0 <= k < n => m[addr + k])
  }

  /**
   * The address space after data is copied to addr. Only mapped addresses are
   * written; a copy never makes an address mapped.
   */
  function Store(m: AddressSpace, addr: int, data: seq<u8>): (r: AddressSpace)
    ensures r.Keys == m.Keys
  {
    map a | a in m :: if addr <= a < addr + |data| then data[a - addr] else m[a]
  }

  /** m and m' hold the same addresses and agree on all of them outside the n bytes at addr. */
  predicate SameOutside(m: AddressSpace, m': AddressSpace, addr: int, n: nat) {
    && m.Keys == m'.Keys
    && forall a :: a in m && !(addr <= a < addr + n) ==> m'[a] == m[a]
  }

  /** The u32 stored at addr, or None when one of its four bytes is unmapped. */
  function LoadU32(m: AddressSpace, addr: int): (r: Option<u32>)
    ensures r.Some? <==> Mapped(m, addr, 4)
  {
    if Mapped(m, addr, 4) then Some(DecodeU32(Load(m, addr, 4))) else None
  }

  /** Reading back the bytes just written gives exactly those bytes. */
  lemma LoadAfterStore(m: AddressSpace, addr: int, data: seq<u8>)
    requires Mapped(m, addr, |data|)
    ensures Mapped(Store(m, addr, data), addr, |data|)
    ensures Load(Store(m, addr, data), addr, |data|) == data
  {
  }

  /**
   * A store of any prefix of data (a write that stopped part way) changes no
   * byte outside the |data| bytes at addr.
   */
  lemma StorePrefixSameOutside(m: AddressSpace, addr: int, data: seq<u8>, k: nat)
    requires k <= |data|
    ensures SameOutside(m, Store(m, addr, data[..k]), addr, |data|)
  {
  }

  /** A store leaves the bytes of a disjoint range as they were. */
  lemma LoadDisjointStore(m: AddressSpace, addr: int, data: seq<u8>, other: int, n: nat)
    requires Mapped(m, other, n)
    requires other + n <= addr || addr + |data| <= other
    ensures Mapped(Store(m, addr, data), other, n)
    ensures Load(Store(m, addr, data), other, n) == Load(m, other, n)
  {
  }

  /** Writing back what was just read changes nothing. */
  lemma StoreOfLoad(m: AddressSpace, addr: int, n: nat)
    requires Mapped(m, addr, n)
    ensures Store(m, addr, Load(m, addr, n)) == m
  {
  }

  /** The second of two writes to the same range is the one that remains. */
  lemma StoreTwice(m: AddressSpace, addr: int, first: seq<u8>, second: seq<u8>)
    requires |first| == |second|
    ensures Store(Store(m, addr, first), addr, second) == Store(m, addr, second)
  {
  }

  /** A u32 written in little-endian order at a mapped address reads back as itself. */
  lemma LoadU32AfterStore(m: AddressSpace, addr: int, v: u32)
    requires Mapped(m, addr, 4)
    ensures LoadU32(Store(m, addr, EncodeU32(v)), addr) == Some(v)
  {
    LoadAfterStore(m, addr, EncodeU32(v));
    DecodeEncodeU32(v);
  }
}
