/** The memory-leak component of src/PerformanceProblems.jsx: a list that every
    "generate" click extends by a batch of 10000 large items and that only the
    "clear" button empties. */
module MemoryLeak {
  import opened Text

  /** Items per generated batch. */
  const BatchSize: nat := 10000
  /** Random numbers in each item's payload. */
  const PayloadSize: nat := 1000

  /** One generated item. `data` holds `Math.random()` results, opaque reals here;
      `timestamp` is the ISO text of the clock when the item was built. */
  datatype BigItem = BigItem(id: int, data: seq<real>, timestamp: string, description: string)

  /** The item `Array.from`'s callback builds at index `i`: `now` is what
      `Date.now()` returned, `stamp` what `toISOString()` returned, and `draws(j)` the
      `j`-th random payload number. */
  function BigItemAt(i: nat, now: int, stamp: string, draws: nat -> real): (item: BigItem)
    ensures item.id == now + i
    ensures |item.data| == PayloadSize
    ensures forall j :: 0 <= j < PayloadSize ==> item.data[j] == draws(j)
  {
    BigItem(now + i, seq(PayloadSize, j requires 0 <= j => draws(j)), stamp,
            Repeat("Large data item " + NatToString(i), 50))
  }

  /** The batch `generateLargeData` builds. For each item the callback reads the
      clock twice, once through `Date.now()` for the id and once through
      `new Date()` for the stamp: `clock(i)` and `stamps(i)` are those two readings
      for item `i`; `draws(i, j)` is payload number `j` of item `i`. */
  function NewBatch(clock: nat -> int, stamps: nat -> string, draws: (nat, nat) -> real): (batch: seq<BigItem>)
    ensures |batch| == BatchSize
    ensures forall i :: 0 <= i < BatchSize ==> batch[i].id == clock(i) + i && batch[i].timestamp == stamps(i)
    ensures forall i :: 0 <= i < BatchSize ==> |batch[i].data| == PayloadSize
    ensures forall i, j :: 0 <= i < BatchSize && 0 <= j < PayloadSize ==> batch[i].data[j] == draws(i, j)
  {
    seq(BatchSize, i requires 0 <= i => BigItemAt(i, clock(i), stamps(i), (j: nat) => draws(i, j)))
  }

  /** The clock never goes backwards while a batch is built. */
  predicate NonDecreasing(clock: nat -> int) {
    forall i, j :: 0 <= i <= j < BatchSize ==> clock(i) <= clock(j)
  }

  /** With a clock that never goes backwards, ids rise strictly through a batch,
      so no two items of a batch share an id. */
  lemma BatchIdsIncrease(clock: nat -> int, stamps: nat -> string, draws: (nat, nat) -> real)
    requires NonDecreasing(clock)
    ensures forall i, j :: 0 <= i < j < BatchSize ==> NewBatch(clock, stamps, draws)[i].id < NewBatch(clock, stamps, draws)[j].id
  {
    var batch := NewBatch(clock, stamps, draws);
    forall i, j | 0 <= i < j < BatchSize
      ensures batch[i].id < batch[j].id
    {
      assert clock(i) <= clock(j);
    }
  }

  /** When the clock reads `base` throughout, item `i` of the batch has id `base + i`. */
  lemma BatchIdsFromBase(base: int, clock: nat -> int, stamps: nat -> string, draws: (nat, nat) -> real)
    requires forall i :: 0 <= i < BatchSize ==> clock(i) == base
    ensures forall i :: 0 <= i < BatchSize ==> NewBatch(clock, stamps, draws)[i].id == base + i
  {
  }

  /** The two state registers of the component. */
  class MemoryLeakComponent {
    var largeDataSet: seq<BigItem>
    var isGenerating: bool

    /** `useState([])` and `useState(false)`. */
    constructor ()
      ensures largeDataSet == [] && !isGenerating
    {
      largeDataSet := [];
      isGenerating := false;
    }

    /** `generateLargeData`: raise the busy flag, build a batch, append it after
        the items already held, lower the flag. */
    method GenerateLargeData(clock: nat -> int, stamps: nat -> string, draws: (nat, nat) -> real)
      modifies this
      ensures largeDataSet == old(largeDataSet) + NewBatch(clock, stamps, draws)
      ensures largeDataSet == Apply(old(largeDataSet), Generate(clock, stamps, draws))
      ensures |largeDataSet| == |old(largeDataSet)| + BatchSize
      ensures old(largeDataSet) <= largeDataSet
      ensures !isGenerating
    {
      isGenerating := true;
      var newData := NewBatch(clock, stamps, draws);
      largeDataSet := largeDataSet + newData;
      isGenerating := false;
    }

    /** The clear button: `setLargeDataSet([])`. */
    method Clear()
      modifies this
      ensures largeDataSet == [] && largeDataSet == Apply(old(largeDataSet), ClearData)
      ensures isGenerating == old(isGenerating)
    {
      largeDataSet := [];
    }
  }

  /** A click on one of the component's two buttons, with the clock readings and
      random numbers a generate click consumes. */
  datatype Action =
    | Generate(clock: nat -> int, stamps: nat -> string, draws: (nat, nat) -> real)
    | ClearData

  /** The list after one click. */
  function Apply(list: seq<BigItem>, a: Action): (r: seq<BigItem>)
    ensures a.Generate? ==> list <= r && |r| == |list| + BatchSize
    ensures a.ClearData? ==> r == []
  {
    match a
    case Generate(clock, stamps, draws) => list + NewBatch(clock, stamps, draws)
    case ClearData => []
  }

  /** The list after a series of clicks. */
  function ApplyAll(list: seq<BigItem>, actions: seq<Action>): seq<BigItem>
    decreases |actions|
  {
    if actions == [] then list else ApplyAll(Apply(list, actions[0]), actions[1..])
  }

  /** Running two series of clicks one after the other. */
  lemma {:induction false} ApplyAllConcat(list: seq<BigItem>, first: seq<Action>, second: seq<Action>)
    ensures ApplyAll(list, first + second) == ApplyAll(ApplyAll(list, first), second)
    decreases |first|
  {
    if first != [] {
      assert (first + second)[0] == first[0];
      assert (first + second)[1..] == first[1..] + second;
      ApplyAllConcat(Apply(list, first[0]), first[1..], second);
    } else {
      assert first + second == second;
    }
  }

  /** Without a clear, the list only grows: the old list stays a prefix and every
      generate click adds exactly one batch. */
  lemma {:induction false} GenerateOnlyGrows(list: seq<BigItem>, actions: seq<Action>)
    requires forall k :: 0 <= k < |actions| ==> actions[k].Generate?
    ensures list <= ApplyAll(list, actions)
    ensures |ApplyAll(list, actions)| == |list| + BatchSize * |actions|
    decreases |actions|
  {
    if actions != [] {
      var next := Apply(list, actions[0]);
      GenerateOnlyGrows(next, actions[1..]);
    }
  }

  /** A clear forgets everything before it: whatever came earlier, the list ends
      as if the clicks after the clear had started from an empty list. */
  lemma ClearForgetsHistory(list: seq<BigItem>, before: seq<Action>, after: seq<Action>)
    ensures ApplyAll(list, before + [ClearData] + after) == ApplyAll([], after)
  {
    ApplyAllConcat(list, before + [ClearData], after);
    ApplyAllConcat(list, before, [ClearData]);
  }
}
