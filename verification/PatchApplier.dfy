/** How SEARCH/REPLACE update blocks are folded into a file, at the granularity of whole lines. */
module PatchApplier {
  import opened Collections
  import opened SourceText

  datatype UpdateBlock = UpdateBlock(search: Source, replace: Source)

  predicate OccursAt(content: Source, pattern: Source, i: int) {
    0 <= i <= |content| - |pattern| && content[i..i + |pattern|] == pattern
  }

  /** The first occurrence at or after `from`. */
  function FindFrom(content: Source, pattern: Source, from: nat): (r: Option<nat>)
    ensures r.Some? ==> r.value >= from && OccursAt(content, pattern, r.value)
    ensures r.Some? ==> forall i :: from <= i < r.value ==> !OccursAt(content, pattern, i)
    ensures r.None? ==> forall i :: from <= i ==> !OccursAt(content, pattern, i)
    decreases |content| - from
  {
    if from + |pattern| > |content| then None
    else if content[from..from + |pattern|] == pattern then Some(from)
    else FindFrom(content, pattern, from + 1)
  }

  /** `content.count(pattern)`: occurrences counted left to right without overlap. */
  function CountFrom(content: Source, pattern: Source, from: nat): nat
    requires pattern != []
    decreases |content| - from
  {
    match FindFrom(content, pattern, from)
    case None => 0
    case Some(i) => 1 + CountFrom(content, pattern, i + |pattern|)
  }

  function ApplyBlock(content: Source, b: UpdateBlock): Option<Source>
    requires b.search != []
  {
    if CountFrom(content, b.search, 0) != 1 then None
    else
      var at := FindFrom(content, b.search, 0);
      if at.None? then None
      else Some(content[..at.value] + b.replace + content[at.value + |b.search|..])
  }

  function ApplyBlocks(content: Source, blocks: seq<UpdateBlock>): Option<Source>
    requires forall b :: b in blocks ==> b.search != []
  {
    if blocks == [] then Some(content)
    else
      var next := ApplyBlocks(content, blocks[..|blocks| - 1]);
      if next.None? then None else ApplyBlock(next.value, blocks[|blocks| - 1])
  }

  method ApplyUpdates(content: Source, blocks: seq<UpdateBlock>) returns (updated: Option<Source>)
    requires forall b :: b in blocks ==> b.search != []
    ensures updated == ApplyBlocks(content, blocks)
  {
    var acc := content;
    for i := 0 to |blocks|
      invariant ApplyBlocks(content, blocks[..i]) == Some(acc)
    {
      var b := blocks[i];
      assert blocks[..i + 1][..i] == blocks[..i];
      var at := FindFrom(acc, b.search, 0);
      if at.None? || CountFrom(acc, b.search, 0) != 1 {
        ApplyBlocksFailure(content, blocks, i + 1);
        return None;
      }
      acc := acc[..at.value] + b.replace + acc[at.value + |b.search|..];
    }
    assert blocks[..|blocks|] == blocks;
    updated := Some(acc);
  }

  lemma {:induction false} ApplyBlocksFailure(content: Source, blocks: seq<UpdateBlock>, i: nat)
    requires forall b :: b in blocks ==> b.search != []
    requires i <= |blocks| && ApplyBlocks(content, blocks[..i]) == None
    ensures ApplyBlocks(content, blocks) == None
    decreases |blocks| - i
  {
    if i < |blocks| {
      assert blocks[..i + 1][..i] == blocks[..i];
      ApplyBlocksFailure(content, blocks, i + 1);
    } else {
      assert blocks[..i] == blocks;
    }
  }

  /** With a known occurrence at `q`, a unique match is the one at `q` unless an earlier
      occurrence overlaps it. */
  lemma UniqueMatchIsOwn(content: Source, pattern: Source, q: nat)
    requires pattern != [] && OccursAt(content, pattern, q)
    requires CountFrom(content, pattern, 0) == 1
    ensures FindFrom(content, pattern, 0).Some?
    ensures var p := FindFrom(content, pattern, 0).value; p == q || p < q < p + |pattern|
  {
    var p := FindFrom(content, pattern, 0).value;
    var second := FindFrom(content, pattern, p + |pattern|);
    assert second.None?;
  }

  /** The pattern stands at `q`, and wherever else it stands it overlaps that place from below. */
  ghost predicate PlacedOnce(content: Source, pattern: Source, q: int) {
    OccursAt(content, pattern, q) && forall i :: OccursAt(content, pattern, i) ==> q <= i < q + |pattern|
  }

  lemma CountIsOneIff(content: Source, pattern: Source)
    requires pattern != []
    ensures CountFrom(content, pattern, 0) == 1 <==> exists p :: PlacedOnce(content, pattern, p)
    ensures CountFrom(content, pattern, 0) == 1 ==>
              FindFrom(content, pattern, 0).Some? && PlacedOnce(content, pattern, FindFrom(content, pattern, 0).value)
    ensures forall p :: PlacedOnce(content, pattern, p) ==> FindFrom(content, pattern, 0) == Some(p)
  {
    var first := FindFrom(content, pattern, 0);
    forall p | PlacedOnce(content, pattern, p)
      ensures first == Some(p) && CountFrom(content, pattern, 0) == 1
    {
      assert first.Some? && OccursAt(content, pattern, first.value);
      assert CountFrom(content, pattern, first.value + |pattern|) == 0;
    }
    if CountFrom(content, pattern, 0) == 1 {
      assert FindFrom(content, pattern, first.value + |pattern|).None?;
      assert PlacedOnce(content, pattern, first.value);
    }
  }

  /** A block applies exactly when its text has one place in the file, wherever that is, and then exactly that
      place is replaced. */
  lemma ApplyBlockIff(content: Source, b: UpdateBlock)
    requires b.search != []
    ensures ApplyBlock(content, b).Some? <==> exists p :: PlacedOnce(content, b.search, p)
    ensures forall p :: PlacedOnce(content, b.search, p) ==>
              ApplyBlock(content, b) == Some(content[..p] + b.replace + content[p + |b.search|..])
  {
    CountIsOneIff(content, b.search);
  }
}
