/** The pool from which records are allocated: blocks of one size, filled from the front. */
module StateMemoryPools {
  import opened Outcomes
  import opened Exploration
  import opened StateIndexArrays

  /** What one allocation hands out: a stretch of a block. */
  datatype Span = Span(block: array<Record>, start: nat, length: nat)

  ghost predicate Disjoint(a: Span, b: Span) {
    a.block != b.block || a.start + a.length <= b.start || b.start + b.length <= a.start
  }

  // The places in these spans
  function Given(spans: seq<Span>): nat {
    if spans == [] then 0 else Given(spans[..|spans| - 1]) + spans[|spans| - 1].length
  }

  class StateMemoryPool {
    const blockSize: nat
    var usedThisBlock: nat
    var blocks: seq<array<Record>>
    // Everything that was handed out
    ghost var spans: seq<Span>

    // A span lies inside of one block, and in the last block it lies before what is free
    ghost predicate InBounds(s: Span)
      reads this
    {
      && s.block in blocks && s.start + s.length <= blockSize
      && (blocks != [] && s.block == blocks[|blocks| - 1] ==> s.start + s.length <= usedThisBlock)
    }

    ghost predicate Fits()
      reads this
    {
      && blocks != [] && usedThisBlock <= blockSize
      && (forall b :: 0 <= b < |blocks| ==> blocks[b].Length == blockSize)
      && (forall b, b' :: 0 <= b < b' < |blocks| ==> blocks[b] != blocks[b'])
      && (forall k :: 0 <= k < |spans| ==> InBounds(spans[k]))
      && (forall j, k :: 0 <= j < k < |spans| ==> Disjoint(spans[j], spans[k]))
      && Given(spans) == (|blocks| - 1) * blockSize + usedThisBlock
    }

    /** Between two calls there is room for one more. */
    ghost predicate Valid()
      reads this
    {
      Fits() && usedThisBlock < blockSize
    }

    /** The pool of a builder is made with exponent 13. */
    constructor (exponent: nat)
      requires BlockSize(exponent).Some?
      ensures Valid() && spans == [] && blockSize == BlockSize(exponent).value && fresh(blocks[0])
    {
      blockSize := BlockSize(exponent).value;
      usedThisBlock := 0;
      spans := [];
      blocks := [];
      new;
      var first := NewBlock();
      blocks := blocks + [first];
    }

    method NewBlock() returns (block: array<Record>)
      ensures fresh(block) && block.Length == blockSize
    {
      block := new Record[blockSize](_ => Record(0.0, true, 0, true, false, false));
    }

    /** allocate.  No two spans that are ever handed out overlap, and no place is skipped: what was
        handed out is all of the full blocks and the used part of the last one.  A request fails
        exactly if it is larger than what is left of the block. */
    method Allocate(number: nat) returns (r: Option<Span>)
      requires Valid()
      modifies this`usedThisBlock, this`blocks, this`spans
      ensures Valid()
      ensures r.None? <==> number > blockSize - old(usedThisBlock)
      ensures r.None? ==> spans == old(spans) && blocks == old(blocks) && usedThisBlock == old(usedThisBlock)
      ensures r.Some? ==>
                && r.value.length == number && r.value.start == old(usedThisBlock)
                && r.value.block == old(blocks)[|old(blocks)| - 1]
                && spans == old(spans) + [r.value]
      ensures number == 1 ==> r.Some?
    {
      hide StateMemoryPool.Fits;
      if number > blockSize - usedThisBlock {
        return None;
      }
      var address := Take(number);
      if usedThisBlock == blockSize {
        AddBlock();
      }
      return Some(address);
    }

    method Take(number: nat) returns (address: Span)
      requires Fits() && usedThisBlock + number <= blockSize
      modifies this`usedThisBlock, this`spans
      ensures Fits() && usedThisBlock == old(usedThisBlock) + number
      ensures address == Span(blocks[|blocks| - 1], old(usedThisBlock), number) && spans == old(spans) + [address]
    {
      address := Span(blocks[|blocks| - 1], usedThisBlock, number);
      usedThisBlock := usedThisBlock + number;
      spans := spans + [address];
      GivenMore(old(spans), address);
      forall k | 0 <= k < |spans| ensures InBounds(spans[k]) && (k < |old(spans)| ==> Disjoint(spans[k], address)) {
        assert k < |old(spans)| ==> old(InBounds(spans[k]));
      }
    }

    // A full block is followed by an empty one
    method AddBlock()
      requires Fits() && usedThisBlock == blockSize > 0
      modifies this`usedThisBlock, this`blocks
      ensures Valid() && usedThisBlock == 0 && |blocks| == |old(blocks)| + 1 && old(blocks) <= blocks
    {
      var next := NewBlock();
      NextBlock(|blocks|, blockSize);
      blocks := blocks + [next];
      usedThisBlock := 0;
      forall k | 0 <= k < |spans| ensures InBounds(spans[k]) {
        assert old(InBounds(spans[k]));
      }
    }
  }

  lemma GivenMore(spans: seq<Span>, s: Span)
    ensures Given(spans + [s]) == Given(spans) + s.length
  {
    assert (spans + [s])[..|spans|] == spans;
  }

  lemma NextBlock(count: nat, blockSize: nat)
    requires count > 0
    ensures (count - 1) * blockSize + blockSize == count * blockSize
  {
  }
}
