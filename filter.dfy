/** The 16-slot moving-average filter of a channel (`moving_average_t`):
    a value-level specification (`FilterState`, `Push`, `Average`) with its
    properties, and the in-place ring buffer that implements it. */
module Filter {
  import opened Machine

  /** Number of samples averaged (16 samples at 100 ms = 1.6 s). */
  const MA_SIZE: int := 16

  /** The sum of a sequence. */
  function Sum(s: seq<int>): int
  {
    if s == [] then 0 else s[0] + Sum(s[1..])
  }

  lemma {:induction false} SumAppend(a: seq<int>, b: seq<int>)
    ensures Sum(a + b) == Sum(a) + Sum(b)
  {
    if a == [] {
      assert a + b == b;
    } else {
      assert (a + b)[1..] == a[1..] + b;
      SumAppend(a[1..], b);
    }
  }

  /** Overwriting one element changes the sum by the difference. */
  lemma {:induction false} SumUpdate(s: seq<int>, i: int, v: int)
    requires 0 <= i < |s|
    ensures Sum(s[i := v]) == Sum(s) - s[i] + v
  {
    if i == 0 {
      assert s[i := v][1..] == s[1..];
    } else {
      assert s[i := v][1..] == s[1..][i - 1 := v];
      SumUpdate(s[1..], i - 1, v);
    }
  }

  /** A sequence whose elements lie in [lo, hi] has its sum in [lo*n, hi*n]. */
  lemma {:induction false} SumBounds(s: seq<int>, lo: int, hi: int)
    requires forall k :: 0 <= k < |s| ==> lo <= s[k] <= hi
    ensures lo * |s| <= Sum(s) <= hi * |s|
  {
    if s != [] {
      SumBounds(s[1..], lo, hi);
      assert lo * |s| == lo + lo * (|s| - 1);
      assert hi * |s| == hi + hi * (|s| - 1);
    }
  }

  /** The sum of n copies of v. */
  lemma {:induction false} SumConstant(s: seq<int>, v: int)
    requires forall k :: 0 <= k < |s| ==> s[k] == v
    ensures Sum(s) == v * |s|
  {
    if s != [] {
      SumConstant(s[1..], v);
      assert v * |s| == v + v * (|s| - 1);
    }
  }

  predicate NonDecreasing(s: seq<int>)
  {
    forall i, j :: 0 <= i <= j < |s| ==> s[i] <= s[j]
  }

  /** The filter's state as a value: ring buffer, write index, running sum,
      fill count and the flag telling whether the first sample was seen. */
  datatype FilterState = FilterState(
    buffer: seq<int>,
    index: int,
    sum: int,
    count: int,
    initialized: bool)

  /** The invariants of `moving_average_t`: 16 slots of `int32_t`, an index
      inside the buffer, `sum` is the sum of the slots, and the count is 16
      once the filter has been seeded and 0 before. */
  predicate WellFormed(f: FilterState)
  {
    && |f.buffer| == MA_SIZE
    && (forall k :: 0 <= k < MA_SIZE ==> -TWO_POW_31 <= f.buffer[k] < TWO_POW_31)
    && 0 <= f.index < MA_SIZE
    && f.sum == Sum(f.buffer)
    && (f.initialized ==> f.count == MA_SIZE)
    && (!f.initialized ==> f.count == 0 && f.index == 0)
  }

  /** `ma_init`: every slot, the index, the sum and the count are zero. */
  function Init(): (f: FilterState)
    ensures WellFormed(f) && !f.initialized
    ensures forall k :: 0 <= k < MA_SIZE ==> f.buffer[k] == 0
  {
    var zeros := seq(MA_SIZE, _ => 0);
    SumConstant(zeros, 0);
    FilterState(zeros, 0, 0, 0, false)
  }

  /** `ma_add`: the first sample seeds every slot; later samples replace the
      slot under the index and advance the index around the ring. */
  function Push(f: FilterState, v: I32): (r: FilterState)
    requires WellFormed(f)
    ensures WellFormed(r) && r.initialized && r.count == MA_SIZE
  {
    if !f.initialized then
      var filled := seq(MA_SIZE, _ => v);
      SumConstant(filled, v);
      FilterState(filled, f.index, v * MA_SIZE, MA_SIZE, true)
    else
      SumUpdate(f.buffer, f.index, v);
      FilterState(f.buffer[f.index := v], (f.index + 1) % MA_SIZE,
                  f.sum - f.buffer[f.index] + v,
                  if f.count < MA_SIZE then f.count + 1 else f.count, true)
  }

  /** `ma_get`: 0 before the first sample, otherwise `sum / count` with C's
      truncation toward zero. The average of `int32_t` slots is itself an
      `int32_t`, so the narrowing cast never changes the value. */
  function Average(f: FilterState): (r: int)
    requires WellFormed(f)
    ensures !f.initialized ==> r == 0
    ensures -TWO_POW_31 <= r < TWO_POW_31
  {
    if f.count == 0 then 0
    else
      SumBounds(f.buffer, -TWO_POW_31, TWO_POW_31 - 1);
      TruncDivBetween(f.sum, f.count, -TWO_POW_31, TWO_POW_31 - 1);
      TruncDiv(f.sum, f.count)
  }

  /** The first sample fills all 16 slots, leaves the index at 0, and the
      average is that sample exactly. */
  lemma SeedFillsAllSlots(f: FilterState, v: I32)
    requires WellFormed(f) && !f.initialized
    ensures var r := Push(f, v);
      && (forall k :: 0 <= k < MA_SIZE ==> r.buffer[k] == v)
      && r.sum == MA_SIZE * v && r.count == MA_SIZE && r.index == 0
      && Average(r) == v
  {
    TruncDivExact(v, MA_SIZE);
  }

  /** A steady-state sample overwrites exactly the slot under the index and
      moves the index one step around the ring. */
  lemma SteadyPushReplacesOneSlot(f: FilterState, v: I32)
    requires WellFormed(f) && f.initialized
    ensures var r := Push(f, v);
      && r.buffer[f.index] == v
      && (forall k :: 0 <= k < MA_SIZE && k != f.index ==> r.buffer[k] == f.buffer[k])
      && r.index == (f.index + 1) % MA_SIZE && 0 <= r.index < MA_SIZE
      && r.sum == f.sum - f.buffer[f.index] + v
  {
  }

  /** Before the first sample the average is 0; afterwards it lies between
      the smallest and the largest slot. */
  lemma AverageWithinSlots(f: FilterState, lo: int, hi: int)
    requires WellFormed(f)
    requires forall k :: 0 <= k < MA_SIZE ==> lo <= f.buffer[k] <= hi
    ensures !f.initialized ==> Average(f) == 0
    ensures f.initialized ==> lo <= Average(f) <= hi
  {
    if f.initialized {
      SumBounds(f.buffer, lo, hi);
      TruncDivBetween(f.sum, MA_SIZE, lo, hi);
    }
  }

  /** The slots in age order, oldest first: the index points at the oldest. */
  function Window(f: FilterState): (w: seq<int>)
    requires WellFormed(f)
    ensures |w| == MA_SIZE
  {
    f.buffer[f.index..] + f.buffer[..f.index]
  }

  lemma SumWindow(f: FilterState)
    requires WellFormed(f)
    ensures Sum(Window(f)) == f.sum
  {
    SumAppend(f.buffer[f.index..], f.buffer[..f.index]);
    SumAppend(f.buffer[..f.index], f.buffer[f.index..]);
    assert f.buffer[..f.index] + f.buffer[f.index..] == f.buffer;
  }

  /** A steady-state sample drops the oldest value of the window and
      appends the new one: the ring buffer is a FIFO of the last 16 samples. */
  lemma WindowAfterPush(f: FilterState, v: I32)
    requires WellFormed(f) && f.initialized
    ensures Window(Push(f, v)) == Window(f)[1..] + [v]
  {
    forall k | 0 <= k < MA_SIZE
      ensures Window(Push(f, v))[k] == (Window(f)[1..] + [v])[k]
    {
      WindowAfterPushAt(f, v, k);
    }
  }

  /** Slot k of the window after a steady-state push. */
  lemma WindowAfterPushAt(f: FilterState, v: I32, k: int)
    requires WellFormed(f) && f.initialized && 0 <= k < MA_SIZE
    ensures Window(Push(f, v))[k] == (Window(f)[1..] + [v])[k]
  {
    WindowAt(Push(f, v), k);
    if k < MA_SIZE - 1 {
      WindowAt(f, k + 1);
    }
  }

  /** Slot k of the window, counted from the oldest. */
  lemma WindowAt(f: FilterState, k: int)
    requires WellFormed(f) && 0 <= k < MA_SIZE
    ensures Window(f)[k] == if f.index + k < MA_SIZE then f.buffer[f.index + k]
                            else f.buffer[f.index + k - MA_SIZE]
  {
  }

  /** Pushing the samples `vs` one after another. */
  function PushAll(f: FilterState, vs: seq<I32>): (r: FilterState)
    requires WellFormed(f)
    ensures WellFormed(r)
    ensures vs != [] ==> r.initialized
    decreases |vs|
  {
    if vs == [] then f else PushAll(Push(f, vs[0]), vs[1..])
  }

  /** The values each push returns, in order. */
  function Outputs(f: FilterState, vs: seq<I32>): (out: seq<int>)
    requires WellFormed(f)
    ensures |out| == |vs|
    decreases |vs|
  {
    if vs == [] then [] else
      var g := Push(f, vs[0]);
      [Average(g)] + Outputs(g, vs[1..])
  }

  /** Once seeded, the window is the last 16 values of the old window
      followed by the pushed samples. */
  lemma {:induction false} WindowAfterPushAll(f: FilterState, vs: seq<I32>)
    requires WellFormed(f) && f.initialized
    ensures Window(PushAll(f, vs)) == (Window(f) + vs)[|vs|..]
    decreases |vs|
  {
    if vs != [] {
      var g := Push(f, vs[0]);
      WindowAfterPush(f, vs[0]);
      WindowAfterPushAll(g, vs[1..]);
      DropFirstThenRest(Window(f), vs);
    }
  }

  /** Dropping |vs| elements of w + vs in two stages: first one element
      together with vs[0] moving over, then the rest. */
  lemma DropFirstThenRest(w: seq<int>, vs: seq<int>)
    requires w != [] && vs != []
    ensures (w[1..] + [vs[0]] + vs[1..])[|vs| - 1..] == (w + vs)[|vs|..]
  {
    assert w[1..] + [vs[0]] + vs[1..] == (w + vs)[1..];
  }

  /** The average of a filter whose window holds v everywhere is v. */
  lemma ConstantWindowAverage(f: FilterState, v: int)
    requires WellFormed(f) && f.initialized
    requires forall k :: 0 <= k < MA_SIZE ==> Window(f)[k] == v
    ensures Average(f) == v
  {
    SumWindow(f);
    SumConstant(Window(f), v);
    TruncDivExact(v, MA_SIZE);
  }

  /** 16 or more identical samples v bring the average to exactly v, from
      any state of the filter. */
  lemma ConstantInputConverges(f: FilterState, v: I32, n: nat)
    requires WellFormed(f) && n >= MA_SIZE
    ensures Average(PushAll(f, seq(n, _ => v))) == v
  {
    var vs := seq(n, _ => v);
    var r := PushAll(f, vs);
    if f.initialized {
      WindowAfterPushAll(f, vs);
      assert forall k :: 0 <= k < MA_SIZE ==> Window(r)[k] == vs[n - MA_SIZE + k];
    } else {
      var g := Push(f, v);
      SeedFillsAllSlots(f, v);
      assert vs[1..] == seq(n - 1, _ => v);
      assert r == PushAll(g, vs[1..]);
      WindowAfterPushAll(g, vs[1..]);
      assert forall k :: 0 <= k < MA_SIZE ==> (Window(g) + vs[1..])[k] == v;
      assert forall k :: 0 <= k < MA_SIZE ==> Window(r)[k] == (Window(g) + vs[1..])[n - 1 + k];
    }
    ConstantWindowAverage(r, v);
  }

  /** With an ordered window and a sample no smaller than its newest value,
      the window stays ordered and the average does not drop. */
  lemma OrderedPushKeepsOrder(f: FilterState, v: I32)
    requires WellFormed(f) && f.initialized
    requires NonDecreasing(Window(f)) && Window(f)[MA_SIZE - 1] <= v
    ensures NonDecreasing(Window(Push(f, v)))
    ensures Window(Push(f, v))[MA_SIZE - 1] == v
    ensures Average(f) <= Average(Push(f, v))
  {
    var r := Push(f, v);
    WindowAfterPush(f, v);
    assert Window(f)[0] == f.buffer[f.index];
    assert f.buffer[f.index] <= v;
    TruncDivMonotone(f.sum, r.sum, MA_SIZE);
  }

  lemma {:induction false} OrderedRun(f: FilterState, vs: seq<I32>)
    requires WellFormed(f) && f.initialized
    requires NonDecreasing(Window(f)) && NonDecreasing(vs)
    requires vs != [] ==> Window(f)[MA_SIZE - 1] <= vs[0]
    ensures NonDecreasing([Average(f)] + Outputs(f, vs))
    decreases |vs|
  {
    if vs != [] {
      var g := Push(f, vs[0]);
      OrderedPushKeepsOrder(f, vs[0]);
      OrderedRun(g, vs[1..]);
      var tail := [Average(g)] + Outputs(g, vs[1..]);
      assert [Average(f)] + Outputs(f, vs) == [Average(f)] + tail;
      assert forall j :: 0 <= j < |tail| ==> Average(f) <= tail[0] <= tail[j];
    }
  }

  /** A fresh filter fed a non-decreasing sample stream returns a
      non-decreasing stream of averages. */
  lemma MonotoneInputMonotoneOutput(vs: seq<I32>)
    requires NonDecreasing(vs)
    ensures NonDecreasing(Outputs(Init(), vs))
  {
    if vs != [] {
      var g := Push(Init(), vs[0]);
      SeedFillsAllSlots(Init(), vs[0]);
      assert forall k :: 0 <= k < MA_SIZE ==> Window(g)[k] == vs[0];
      OrderedRun(g, vs[1..]);
      assert Outputs(Init(), vs) == [Average(g)] + Outputs(g, vs[1..]);
    }
  }

  /** The filter of one channel: a 16-slot array updated in place. */
  class MovingAverage {
    const buffer: array<int>
    var index: int
    var sum: int
    var count: int
    var initialized: bool

    ghost function State(): FilterState
      reads this, buffer
    {
      FilterState(buffer[..], index, sum, count, initialized)
    }

    ghost predicate Valid()
      reads this, buffer
    {
      WellFormed(State())
    }

    /** Allocation followed by `ma_init`. */
    constructor ()
      ensures Valid() && State() == Init() && fresh(buffer)
    {
      buffer := new int[MA_SIZE](_ => 0);
      index := 0;
      sum := 0;
      count := 0;
      initialized := false;
      new;
      assert buffer[..] == Init().buffer;
    }

    /** `ma_add`. */
    method Add(value: I32)
      requires Valid()
      modifies this, buffer
      ensures Valid()
      ensures State() == Push(old(State()), value)
    {
      if !initialized {
        for i := 0 to MA_SIZE
          modifies buffer
          invariant forall k :: 0 <= k < i ==> buffer[k] == value
        {
          buffer[i] := value;
        }
        assert buffer[..] == seq(MA_SIZE, _ => value);
        SumConstant(buffer[..], value);
        sum := value * MA_SIZE;
        count := MA_SIZE;
        initialized := true;
        return;
      }
      ghost var before := buffer[..];
      SumUpdate(before, index, value);
      sum := sum - buffer[index];
      buffer[index] := value;
      sum := sum + value;
      assert buffer[..] == before[index := value];
      index := (index + 1) % MA_SIZE;
      // saturating increment; once seeded the count is already 16
      count := if count < MA_SIZE then count + 1 else count;
    }

    /** `ma_get`. */
    method Get() returns (avg: int)
      requires Valid()
      ensures avg == Average(State())
    {
      if count == 0 {
        return 0;
      }
      avg := if sum >= 0 then sum / count else -((-sum) / count);
    }
  }
}
