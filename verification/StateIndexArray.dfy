/** The block array that serves as stateMap: against which sequences of puts it behaves like a map. */
module StateIndexArrays {
  import opened Outcomes
  import opened ProbabilityStates

  // Where an index is stored: the number of the block, kept in 16 bits, and the place in it
  datatype Address = Address(block: nat, offset: nat)

  function AddressOf(blockSize: nat, index: nat): Address
    requires blockSize > 0
  {
    Address(index / blockSize % 0x1_0000, index % blockSize)
  }

  // 2 << exponent
  function Shifted(exponent: nat): (r: nat)
    ensures r > 0
  {
    if exponent == 0 then 2 else 2 * Shifted(exponent - 1)
  }

  /** Each exponent doubles it, and exponents add up. */
  lemma {:induction false} ShiftedAdds(a: nat, b: nat)
    ensures Shifted(0) == 2 && Shifted(a + 1) == 2 * Shifted(a)
    ensures Shifted(a + b + 1) == Shifted(a) * Shifted(b)
  {
    if b == 0 {
      assert Shifted(0) == 2;
    } else {
      ShiftedAdds(a, b - 1);
      assert Shifted(a + b + 1) == 2 * Shifted(a + b);
      assert Shifted(a) * (2 * Shifted(b - 1)) == 2 * (Shifted(a) * Shifted(b - 1));
    }
  }

  /** 2 << exponent, where 2 is an int of 32 bits: from exponent 30 on the result is not one, and
      neither are the loop counters that run up to it. */
  function BlockSize(exponent: nat): (r: Option<nat>)
    ensures r.Some? ==> 0 < r.value < 0x8000_0000
  {
    if Shifted(exponent) < 0x8000_0000 then Some(Shifted(exponent)) else None
  }

  // ----- Puts as a history --------------------------------------------------------------------------------

  datatype Stored<P> = Stored(index: nat, value: P)

  /** What a map gives: the value that was put last at this index. */
  function LastPut<P>(puts: seq<Stored<P>>, index: nat, none: P): P {
    if puts == [] then none
    else if puts[|puts| - 1].index == index then puts[|puts| - 1].value
    else LastPut(puts[..|puts| - 1], index, none)
  }

  /** It was put at this index, and nothing was put there afterwards; or nothing was ever put there. */
  lemma {:induction false} LastPutMeaning<P>(puts: seq<Stored<P>>, index: nat, none: P, k: nat)
    ensures k < |puts| && puts[k].index == index && (forall l :: k < l < |puts| ==> puts[l].index != index) ==>
              LastPut(puts, index, none) == puts[k].value
    ensures (forall l :: 0 <= l < |puts| ==> puts[l].index != index) ==> LastPut(puts, index, none) == none
  {
    if puts != [] {
      var rest := puts[..|puts| - 1];
      LastPutMeaning(rest, index, none, k);
      forall l | 0 <= l < |rest| ensures rest[l] == puts[l] {
      }
    }
  }

  /** What the array gives: the value that was put last at this address. */
  function LastAt<P>(blockSize: nat, puts: seq<Stored<P>>, a: Address, none: P): P
    requires blockSize > 0
  {
    if puts == [] then none
    else if AddressOf(blockSize, puts[|puts| - 1].index) == a then puts[|puts| - 1].value
    else LastAt(blockSize, puts[..|puts| - 1], a, none)
  }

  lemma LastOfMore<P>(blockSize: nat, puts: seq<Stored<P>>, index: nat, value: P, a: Address, none: P)
    requires blockSize > 0
    ensures LastAt(blockSize, puts + [Stored(index, value)], a, none)
            == if AddressOf(blockSize, index) == a then value else LastAt(blockSize, puts, a, none)
  {
    assert (puts + [Stored(index, value)])[..|puts|] == puts;
  }

  ghost predicate Words<P>(puts: seq<Stored<P>>) {
    forall k :: 0 <= k < |puts| ==> puts[k].index < 0x1_0000_0000
  }

  lemma BlockFits(blockSize: nat, i: nat)
    requires blockSize >= 0x1_0000 && i < 0x1_0000_0000
    ensures i / blockSize < 0x1_0000
  {
  }

  lemma Recompose(i: nat, d: nat)
    requires d > 0
    ensures i == i / d * d + i % d && 0 <= i % d < d
  {
  }

  lemma SameParts(i: nat, j: nat, d: nat)
    requires d > 0 && i / d == j / d && i % d == j % d
    ensures i == j
  {
    Recompose(i, d);
    Recompose(j, d);
  }

  lemma AddressIs(blockSize: nat, i: nat)
    requires blockSize >= 0x1_0000 && i < 0x1_0000_0000
    ensures AddressOf(blockSize, i) == Address(i / blockSize, i % blockSize)
  {
    BlockFits(blockSize, i);
    SmallStays(i / blockSize);
  }

  /** With large enough blocks no two indices share an address. */
  lemma AddressIsExact(blockSize: nat, i: nat, j: nat)
    requires blockSize >= 0x1_0000 && i < 0x1_0000_0000 && j < 0x1_0000_0000
    ensures AddressOf(blockSize, i) == AddressOf(blockSize, j) ==> i == j
  {
    hide AddressOf;
    AddressIs(blockSize, i);
    AddressIs(blockSize, j);
    if AddressOf(blockSize, i) == AddressOf(blockSize, j) {
      SameParts(i, j, blockSize);
    }
  }

  lemma SmallStays(q: nat)
    requires q < 0x1_0000
    ensures q % 0x1_0000 == q
  {
  }

  lemma {:induction false} LargeBlocksAreExact<P>(blockSize: nat, puts: seq<Stored<P>>, i: nat, none: P)
    requires blockSize >= 0x1_0000 && Words(puts) && i < 0x1_0000_0000
    ensures LastAt(blockSize, puts, AddressOf(blockSize, i), none) == LastPut(puts, i, none)
  {
    if puts != [] {
      AddressIsExact(blockSize, puts[|puts| - 1].index, i);
      LargeBlocksAreExact(blockSize, puts[..|puts| - 1], i, none);
    }
  }

  // The first index whose block number does not fit in 16 bits gets the address of index 0
  lemma SmallBlocksAlias(blockSize: nat)
    requires 0 < blockSize < 0x1_0000
    ensures 0 < blockSize * 0x1_0000 < 0x1_0000_0000
    ensures AddressOf(blockSize, blockSize * 0x1_0000) == AddressOf(blockSize, 0)
  {
    var i := blockSize * 0x1_0000;
    DivideUnique(i, blockSize, 0x1_0000);
    DivideUnique(0, blockSize, 0);
  }

  lemma Multiples(x: int, d: nat)
    requires 0 <= x * d < d
    ensures x == 0
  {
  }

  lemma DivideUnique(i: nat, d: nat, q: nat)
    requires d > 0 && i == q * d
    ensures i / d == q && i % d == 0
  {
    Recompose(i, d);
    var k := i / d;
    assert (q - k) * d == q * d - k * d;
    Multiples(q - k, d);
  }

  ghost predicate ActsAsMap<P(!new)>(blockSize: nat, none: P)
    requires blockSize > 0
  {
    forall puts: seq<Stored<P>>, i: nat :: Words(puts) && i < 0x1_0000_0000 ==>
      LastAt(blockSize, puts, AddressOf(blockSize, i), none) == LastPut(puts, i, none)
  }

  lemma ActsAsMapExactly<P(!new)>(blockSize: nat, none: P, x: P)
    requires x != none && blockSize > 0
    ensures ActsAsMap(blockSize, none) <==> blockSize >= 0x1_0000
  {
    if blockSize >= 0x1_0000 {
      forall puts: seq<Stored<P>>, i: nat | Words(puts) && i < 0x1_0000_0000
        ensures LastAt(blockSize, puts, AddressOf(blockSize, i), none) == LastPut(puts, i, none)
      {
        LargeBlocksAreExact(blockSize, puts, i, none);
      }
    } else {
      SmallBlocksAlias(blockSize);
      var puts := [Stored(blockSize * 0x1_0000, x)];
      assert LastPut(puts, 0, none) == none;
      assert LastAt(blockSize, puts, AddressOf(blockSize, 0), none) == x;
      assert Words(puts);
    }
  }

  /** The array can be made and is a map from 32-bit indices for exactly these exponents: from 15 on a
      block has at least 2^16 places, so that its 16-bit block number is never truncated, and up to
      29 its size is an int.  The default exponent, 15, is the least that will do. */
  lemma BlockArrayIsMap<P(!new)>(exponent: nat, none: P, x: P)
    requires x != none
    ensures BlockSize(exponent).Some? && ActsAsMap(BlockSize(exponent).value, none) <==> 15 <= exponent <= 29
  {
    ShiftedIsLarge(exponent);
    ShiftedIsInt(exponent);
    if BlockSize(exponent).Some? {
      ActsAsMapExactly(BlockSize(exponent).value, none, x);
    }
  }

  lemma ShiftedIsInt(exponent: nat)
    ensures Shifted(exponent) < 0x8000_0000 <==> exponent <= 29
  {
    assert Shifted(4) == 32;
    assert Shifted(8) == 512;
    assert Shifted(12) == 8192;
    assert Shifted(16) == 0x2_0000;
    assert Shifted(20) == 0x20_0000;
    assert Shifted(24) == 0x200_0000;
    assert Shifted(28) == 0x2000_0000;
    assert Shifted(29) == 0x4000_0000;
    assert Shifted(30) == 0x8000_0000;
    if exponent >= 30 {
      ShiftedGrows(30, exponent);
    } else {
      ShiftedGrows(exponent, 29);
    }
  }

  lemma {:induction false} ShiftedGrows(small: nat, large: nat)
    requires small <= large
    ensures Shifted(small) <= Shifted(large)
  {
    if small < large {
      ShiftedGrows(small, large - 1);
    }
  }

  lemma ShiftedIsLarge(exponent: nat)
    ensures Shifted(exponent) >= 0x1_0000 <==> exponent >= 15
  {
    assert Shifted(4) == 32;
    assert Shifted(8) == 512;
    assert Shifted(12) == 8192;
    assert Shifted(14) == 0x8000;
    assert Shifted(15) == 0x1_0000;
    if exponent >= 15 {
      ShiftedGrows(15, exponent);
    } else {
      ShiftedGrows(exponent, 14);
    }
  }

  ghost predicate OwnIndices(puts: seq<Stored<ProbabilityState?>>) {
    forall k :: 0 <= k < |puts| ==> puts[k].value != null ==> puts[k].value.index == puts[k].index
  }

  lemma {:induction false} LastIsOwn(blockSize: nat, puts: seq<Stored<ProbabilityState?>>, a: Address)
    requires blockSize > 0 && Words(puts) && OwnIndices(puts)
    ensures var p := LastAt(blockSize, puts, a, null);
            p != null ==> p.index < 0x1_0000_0000 && AddressOf(blockSize, p.index) == a
  {
    if puts != [] {
      LastIsOwn(blockSize, puts[..|puts| - 1], a);
    }
  }

  // ----- The array ----------------------------------------------------------------------------------------

  class StateIndexArray {
    const blockSize: nat
    var stateArray: seq<array<ProbabilityState?>>
    // Everything that was put
    ghost var puts: seq<Stored<ProbabilityState?>>

    ghost predicate Shape()
      reads this
    {
      && blockSize > 0 && |stateArray| > 0
      && (forall b :: 0 <= b < |stateArray| ==> stateArray[b].Length == blockSize)
      && (forall b, b' :: 0 <= b < b' < |stateArray| ==> stateArray[b] != stateArray[b'])
    }

    /** What is stored at an address; nothing outside of the blocks there are. */
    ghost function At(a: Address): ProbabilityState?
      requires Shape()
      reads this, stateArray
    {
      if a.block < |stateArray| && a.offset < blockSize then stateArray[a.block][a.offset] else null
    }

    ghost predicate Valid()
      reads this, stateArray
    {
      && Shape() && Words(puts)
      && (forall a: Address :: a.offset < blockSize ==> At(a) == LastAt(blockSize, puts, a, null))
    }

    /** The builder's stateMap is made with exponent 15. */
    constructor (exponent: nat)
      requires BlockSize(exponent).Some?
      ensures Valid() && fresh(stateArray) && puts == [] && blockSize == BlockSize(exponent).value
    {
      blockSize := BlockSize(exponent).value;
      stateArray := [];
      puts := [];
      new;
      var subArray := new ProbabilityState?[blockSize](_ => null);
      stateArray := stateArray + [subArray];
    }

    /** get, for an index of 32 bits. */
    method Get(index: nat) returns (p: ProbabilityState?)
      requires Valid() && index < 0x1_0000_0000
      ensures p == LastAt(blockSize, puts, AddressOf(blockSize, index), null)
      ensures blockSize >= 0x1_0000 ==> p == LastPut(puts, index, null)
    {
      if blockSize >= 0x1_0000 {
        LargeBlocksAreExact(blockSize, puts, index, null);
      }
      var arrayIndex := index / blockSize % 0x1_0000;
      if arrayIndex > |stateArray| - 1 {
        assert At(AddressOf(blockSize, index)) == null;
        return null;
      }
      var subArrayIndex := index % blockSize;
      p := stateArray[arrayIndex][subArrayIndex];
      assert p == At(AddressOf(blockSize, index));
    }

    /** The blocks up to this one are there. */
    method AddBlocks(arrayIndex: nat)
      requires Valid()
      modifies this`stateArray
      ensures Valid() && arrayIndex < |stateArray| && puts == old(puts)
      ensures old(stateArray) <= stateArray
              && (forall b :: |old(stateArray)| <= b < |stateArray| ==> fresh(stateArray[b]))
    {
      while arrayIndex > |stateArray| - 1
        invariant Valid() && old(stateArray) <= stateArray
                  && (forall b :: |old(stateArray)| <= b < |stateArray| ==> fresh(stateArray[b]))
        decreases arrayIndex - |stateArray|
      {
        var subArray := new ProbabilityState?[blockSize](_ => null);
        ghost var before := stateArray;
        label L:
        stateArray := stateArray + [subArray];
        forall a: Address | a.offset < blockSize ensures At(a) == LastAt(blockSize, puts, a, null) {
          assert old@L(At(a)) == LastAt(blockSize, puts, a, null);
          assert a.block < |before| ==> stateArray[a.block] == before[a.block];
        }
      }
    }

    /** put, for an index of 32 bits. */
    method Put(index: nat, p: ProbabilityState?)
      requires Valid() && index < 0x1_0000_0000
      modifies this, stateArray
      ensures Valid() && puts == old(puts) + [Stored(index, p)]
      ensures forall b :: 0 <= b < |stateArray| ==> fresh(stateArray[b]) || stateArray[b] in old(stateArray)
    {
      var arrayIndex, subArrayIndex := index / blockSize % 0x1_0000, index % blockSize;
      AddBlocks(arrayIndex);
      assert arrayIndex < |old(stateArray)| ==> stateArray[arrayIndex] == old(stateArray)[arrayIndex];
      Store(arrayIndex, subArrayIndex, index, p);
    }

    method Store(arrayIndex: nat, subArrayIndex: nat, ghost index: nat, p: ProbabilityState?)
      requires Valid() && arrayIndex < |stateArray| && index < 0x1_0000_0000
      requires AddressOf(blockSize, index) == Address(arrayIndex, subArrayIndex)
      modifies this`puts, stateArray[arrayIndex]
      ensures Valid() && puts == old(puts) + [Stored(index, p)]
    {
      stateArray[arrayIndex][subArrayIndex] := p;
      puts := puts + [Stored(index, p)];
      hide AddressOf;
      forall a: Address | a.offset < blockSize ensures At(a) == LastAt(blockSize, puts, a, null) {
        LastOfMore(blockSize, old(puts), index, p, a, null);
        assert At(a) == if a == Address(arrayIndex, subArrayIndex) then p else old(At(a));
        assert old(At(a)) == LastAt(blockSize, old(puts), a, null);
      }
    }

    // ----- The perimeter -----------------------------------------------------------------------------------

    ghost predicate Terminal(a: Address)
      requires Shape()
      reads *
    {
      At(a) != null && At(a).terminal
    }

    // The indices of the terminal states in the first places of a block
    ghost function InBlock(b: nat, size: nat): seq<nat>
      requires Shape()
      reads *
    {
      if size == 0 then []
      else InBlock(b, size - 1) + (if Terminal(Address(b, size - 1)) then [At(Address(b, size - 1)).index] else [])
    }

    // Those in the first blocks
    ghost function InBlocks(blocks: nat): seq<nat>
      requires Shape()
      reads *
    {
      if blocks == 0 then [] else InBlocks(blocks - 1) + InBlock(blocks - 1, blockSize)
    }

    /** getPerimeterStates. */
    method GetPerimeterStates() returns (perimeterStates: seq<nat>)
      requires Valid()
      ensures perimeterStates == InBlocks(|stateArray|)
    {
      perimeterStates := [];
      for b := 0 to |stateArray|
        invariant perimeterStates == InBlocks(b)
      {
        var subArray := stateArray[b];
        ghost var before := perimeterStates;
        for i := 0 to blockSize
          invariant perimeterStates == before + InBlock(b, i)
        {
          assert subArray[i] == At(Address(b, i));
          if subArray[i] != null && subArray[i].terminal {
            perimeterStates := perimeterStates + [subArray[i].index];
          }
        }
      }
    }

    /** getNumberTerminal. */
    method GetNumberTerminal() returns (count: nat)
      requires Valid()
      ensures count == |InBlocks(|stateArray|)|
    {
      var perimeterStates := GetPerimeterStates();
      count := |perimeterStates|;
    }

    // Every record lies where its own index belongs
    ghost predicate OwnPlaces()
      requires Shape()
      reads *
    {
      forall a: Address :: a.offset < blockSize && At(a) != null ==>
        At(a).index < 0x1_0000_0000 && AddressOf(blockSize, At(a).index) == a
    }

    lemma {:induction false} InBlockIsOrdered(b: nat, size: nat)
      requires Shape() && OwnPlaces() && blockSize >= 0x1_0000 && size <= blockSize
      ensures forall k :: 0 <= k < |InBlock(b, size)| ==> b * blockSize <= InBlock(b, size)[k] < b * blockSize + size
      ensures forall j, k :: 0 <= j < k < |InBlock(b, size)| ==> InBlock(b, size)[j] < InBlock(b, size)[k]
    {
      if size > 0 {
        InBlockIsOrdered(b, size - 1);
        var a := Address(b, size - 1);
        if Terminal(a) {
          IndexAt(a);
        }
      }
    }

    // The index of the record at an address
    lemma IndexAt(a: Address)
      requires Shape() && OwnPlaces() && blockSize >= 0x1_0000 && a.offset < blockSize && At(a) != null
      ensures At(a).index == a.block * blockSize + a.offset
    {
      var i := At(a).index;
      BlockFits(blockSize, i);
      assert i == i / blockSize * blockSize + i % blockSize;
    }

    lemma {:induction false} InBlocksAreOrdered(blocks: nat)
      requires Shape() && OwnPlaces() && blockSize >= 0x1_0000
      ensures forall k :: 0 <= k < |InBlocks(blocks)| ==> InBlocks(blocks)[k] < blocks * blockSize
      ensures forall j, k :: 0 <= j < k < |InBlocks(blocks)| ==> InBlocks(blocks)[j] < InBlocks(blocks)[k]
    {
      if blocks > 0 {
        InBlocksAreOrdered(blocks - 1);
        InBlockIsOrdered(blocks - 1, blockSize);
        assert blocks * blockSize == (blocks - 1) * blockSize + blockSize;
      }
    }

    lemma {:induction false} InBlockHas(b: nat, size: nat, i: nat)
      requires Shape() && OwnPlaces() && blockSize >= 0x1_0000 && size <= blockSize && i < 0x1_0000_0000
      ensures i in InBlock(b, size) <==>
                AddressOf(blockSize, i).block == b && i % blockSize < size && Terminal(AddressOf(blockSize, i))
    {
      if size > 0 {
        InBlockHas(b, size - 1, i);
        var a := Address(b, size - 1);
        if Terminal(a) {
          AddressIsExact(blockSize, At(a).index, i);
        }
      }
    }

    lemma {:induction false} InBlocksHave(blocks: nat, i: nat)
      requires Shape() && OwnPlaces() && blockSize >= 0x1_0000 && i < 0x1_0000_0000
      ensures i in InBlocks(blocks) <==> AddressOf(blockSize, i).block < blocks && Terminal(AddressOf(blockSize, i))
    {
      hide AddressOf, StateIndexArray.InBlock, StateIndexArray.Terminal, StateIndexArray.OwnPlaces;
      if blocks > 0 {
        InBlocksHave(blocks - 1, i);
        InBlockHas(blocks - 1, blockSize, i);
      }
    }

    /** If every record was put at its own index, the perimeter states are listed in increasing
        order, each once, and they are exactly the terminal ones. */
    lemma PerimeterIsListed()
      requires Valid() && OwnIndices(puts) && blockSize >= 0x1_0000
      ensures var r := InBlocks(|stateArray|);
              && (forall j, k :: 0 <= j < k < |r| ==> r[j] < r[k])
              && (forall i: nat :: i < 0x1_0000_0000 ==>
                    (i in r <==> LastPut(puts, i, null) != null && LastPut(puts, i, null).terminal))
    {
      var r := InBlocks(|stateArray|);
      forall a: Address | a.offset < blockSize && At(a) != null
        ensures At(a).index < 0x1_0000_0000 && AddressOf(blockSize, At(a).index) == a
      {
        LastIsOwn(blockSize, puts, a);
      }
      InBlocksAreOrdered(|stateArray|);
      forall i: nat | i < 0x1_0000_0000
        ensures i in r <==> LastPut(puts, i, null) != null && LastPut(puts, i, null).terminal
      {
        InBlocksHave(|stateArray|, i);
        LargeBlocksAreExact(blockSize, puts, i, null);
        assert At(AddressOf(blockSize, i)) == LastAt(blockSize, puts, AddressOf(blockSize, i), null);
      }
    }
  }
}
