/**
 * Batch planning (`estimateBatch`), the fee gate in front of character
 * creation, and the loop that posts the notes in consecutive slices.
 */
module Batching {

  /** The size multiplier and the payload limit of `estimateBatch`. */
  const SizeFactor: nat := 3
  const MaxPayload: nat := 128000

  /** Fee units of the gate, in gwei: one per posting batch, one for creating the character. */
  const PostFeeGwei: nat := 11540011
  const CreateFeeGwei: nat := 315103
  const WeiPerGwei: nat := 1000000000

  function Min(a: int, b: int): int {
    if a <= b then a else b
  }

  /** `Math.ceil(a / b)` for natural numbers. */
  function CeilDiv(a: nat, b: nat): nat
    requires b > 0
  {
    (a + b - 1) / b
  }

  /** The quotient rounded up is the least `q` with `q * b >= a`. */
  lemma CeilDivSpec(a: nat, b: nat)
    requires b > 0
    ensures b * CeilDiv(a, b) >= a
    ensures CeilDiv(a, b) > 0 ==> b * (CeilDiv(a, b) - 1) < a
    ensures CeilDiv(a, b) == 0 <==> a == 0
  {
    var q, r := (a + b - 1) / b, (a + b - 1) % b;
    assert a + b - 1 == q * b + r && 0 <= r < b;
    assert b * q == q * b;
    assert b * (q - 1) == q * b - b;
  }

  lemma MulMono(b: nat, x: nat, y: nat)
    requires x <= y
    ensures b * x <= b * y
  {
    assert b * y == b * x + b * (y - x);
  }

  lemma MulNext(a: nat, b: nat)
    ensures (a + 1) * b == a * b + b
  {
    assert (a + 1) * b == a * b + 1 * b;
  }

  lemma LessByMul(b: nat, x: nat, y: nat)
    requires b * x < b * y
    ensures x < y
  {
    assert b * (y - x) == b * y - b * x;
  }

  /** Any `q` with `q * b >= a > (q - 1) * b` is the rounded-up quotient. */
  lemma CeilDivUnique(a: nat, b: nat, q: nat)
    requires b > 0
    requires b * q >= a
    requires q > 0 ==> b * (q - 1) < a
    ensures q == CeilDiv(a, b)
  {
    var c := CeilDiv(a, b);
    CeilDivSpec(a, b);
    if q < c {
      MulMono(b, q, c - 1);
    } else if q > c {
      MulMono(b, c, q - 1);
    }
  }

  /** `{ batchCount, batchSize }` */
  datatype Plan = Plan(count: nat, size: nat)

  /**
   * `estimateBatch`: `jsonSize` is the length of the notes' JSON text (at
   * least 2, the length of `[]`) and `items` the number of notes. The count
   * is the least number of payloads of `MaxPayload` that hold three times
   * the JSON size; the size is the least per-batch number of notes that lets
   * `count` batches hold them all.
   */
  function EstimateBatch(jsonSize: nat, items: nat): (p: Plan)
    requires jsonSize >= 2
    ensures p.count >= 1
    ensures p.count * MaxPayload >= SizeFactor * jsonSize > (p.count - 1) * MaxPayload
    ensures p.size >= 1 <==> items >= 1
    ensures p.count * p.size >= items
    ensures p.size >= 1 ==> p.count * (p.size - 1) < items
  {
    var count := CeilDiv(SizeFactor * jsonSize, MaxPayload);
    CeilDivSpec(SizeFactor * jsonSize, MaxPayload);
    var size := CeilDiv(items, count);
    CeilDivSpec(items, count);
    Plan(count, size)
  }

  /** The slices of length `size` (the last possibly shorter) that cut `xs` from the front. */
  function Batches<T>(xs: seq<T>, size: nat): seq<seq<T>>
    requires size > 0
    decreases |xs|
  {
    if |xs| == 0 then []
    else
      var k := Min(size, |xs|);
      [xs[..k]] + Batches(xs[k..], size)
  }

  function Flatten<T>(bs: seq<seq<T>>): seq<T>
    decreases |bs|
  {
    if bs == [] then [] else bs[0] + Flatten(bs[1..])
  }

  /** Slicing `xs` in steps of `size` gives `ceil(|xs| / size)` slices. */
  lemma {:induction false} BatchesCount<T>(xs: seq<T>, size: nat)
    requires size > 0
    ensures |Batches(xs, size)| == CeilDiv(|xs|, size)
    decreases |xs|
  {
    if |xs| == 0 {
      CeilDivUnique(0, size, 0);
    } else {
      var k := Min(size, |xs|);
      BatchesCount(xs[k..], size);
      var c := |Batches(xs[k..], size)|;
      CeilDivSpec(|xs| - k, size);
      assert size * (c + 1) == size * c + size;
      if c > 0 {
        assert size * c == size * (c - 1) + size;
      }
      CeilDivUnique(|xs|, size, c + 1);
    }
  }

  /** Every slice is non-empty and at most `size` long. */
  lemma {:induction false} BatchesBounded<T>(xs: seq<T>, size: nat)
    requires size > 0
    ensures forall b :: b in Batches(xs, size) ==> 0 < |b| <= size
    decreases |xs|
  {
    if |xs| > 0 {
      BatchesBounded(xs[Min(size, |xs|)..], size);
    }
  }

  /** The slices, concatenated in order, give `xs` back. */
  lemma {:induction false} BatchesFlatten<T>(xs: seq<T>, size: nat)
    requires size > 0
    ensures Flatten(Batches(xs, size)) == xs
    decreases |xs|
  {
    if |xs| > 0 {
      var k := Min(size, |xs|);
      BatchesFlatten(xs[k..], size);
      var bs := Batches(xs, size);
      assert bs[1..] == Batches(xs[k..], size);
      assert xs == xs[..k] + xs[k..];
    }
  }

  /** The `j`-th slice starts at `j * size` and ends `size` later or at the end of `xs`. */
  lemma {:induction false} BatchAt<T>(xs: seq<T>, size: nat, j: nat)
    requires size > 0 && j < |Batches(xs, size)|
    ensures j * size < |xs| && (j + 1) * size == j * size + size
    ensures Batches(xs, size)[j] == xs[j * size..Min((j + 1) * size, |xs|)]
    decreases |xs|
  {
    var k := Min(size, |xs|);
    var rest := Batches(xs[k..], size);
    assert Batches(xs, size) == [xs[..k]] + rest;
    MulNext(j, size);
    if j > 0 {
      assert k == size;
      var tail := xs[size..];
      BatchAt(tail, size, j - 1);
      var p, hi := (j - 1) * size, Min(j * size, |tail|);
      assert rest[j - 1] == tail[p..hi];
      assert tail[p..hi] == xs[p + size..hi + size];
    }
  }

  /** After `k` slices, `min(k * size, |xs|)` elements of `xs` have been covered. */
  lemma {:induction false} BatchesPrefix<T>(xs: seq<T>, size: nat, k: nat)
    requires size > 0 && k <= |Batches(xs, size)|
    ensures |Flatten(Batches(xs, size)[..k])| == Min(k * size, |xs|)
    decreases |xs|
  {
    var bs := Batches(xs, size);
    if k == 0 {
      assert bs[..0] == [];
    } else {
      var m := Min(size, |xs|);
      var rest := Batches(xs[m..], size);
      assert bs[..k][1..] == rest[..k - 1];
      BatchesPrefix(xs[m..], size, k - 1);
      assert k * size == (k - 1) * size + size;
      if m < size {
        assert rest == [];
      }
    }
  }

  /** When the plan's batch size is used, at most `count` calls are issued. */
  lemma CallsWithinPlan(jsonSize: nat, items: nat)
    requires jsonSize >= 2 && items >= 1
    ensures var p := EstimateBatch(jsonSize, items);
            CeilDiv(items, p.size) <= p.count
  {
    var p := EstimateBatch(jsonSize, items);
    var q := CeilDiv(items, p.size);
    CeilDivSpec(items, p.size);
    assert p.count * p.size == p.size * p.count;
    if q > p.count {
      MulMono(p.size, p.count, q - 1);
    }
  }

  /** The balance, in wei, below which `process` stops before creating the character. */
  function FeeWei(batchCount: nat): nat {
    (batchCount * PostFeeGwei + CreateFeeGwei) * WeiPerGwei
  }

  /**
   * The fee the gate demands covers what the run then spends: one posting
   * fee for every `postMany` call the slicing by `size` issues, plus the
   * character creation.
   */
  lemma FeeCoversCalls(jsonSize: nat, items: nat)
    requires jsonSize >= 2 && items >= 1
    ensures var p := EstimateBatch(jsonSize, items);
            CeilDiv(items, p.size) * PostFeeGwei + CreateFeeGwei <= p.count * PostFeeGwei + CreateFeeGwei
    ensures var p := EstimateBatch(jsonSize, items);
            FeeWei(CeilDiv(items, p.size)) <= FeeWei(p.count)
  {
    var p := EstimateBatch(jsonSize, items);
    var q := CeilDiv(items, p.size);
    CallsWithinPlan(jsonSize, items);
    MulMono(PostFeeGwei, q, p.count);
    assert q * PostFeeGwei <= p.count * PostFeeGwei;
    var lo, hi := q * PostFeeGwei + CreateFeeGwei, p.count * PostFeeGwei + CreateFeeGwei;
    MulMono(WeiPerGwei, lo, hi);
    assert lo * WeiPerGwei <= hi * WeiPerGwei;
  }

  /**
   * The posting loop of `process`: for `i = 0, size, 2*size, …` below
   * `|notes|`, post `notes[i .. i + size]` and report `i + |batch|`.
   * `rejects` says which batch the ledger refuses; the first refusal ends
   * the loop (the awaited call throws) and nothing after it is posted.
   */
  method PostInBatches<T>(notes: seq<T>, size: nat, rejects: seq<T> -> bool)
    returns (calls: seq<seq<T>>, reported: seq<nat>, halted: bool)
    requires |notes| > 0 ==> size > 0
    ensures |notes| == 0 ==> calls == [] && reported == [] && !halted
    ensures size > 0 ==> |calls| <= |Batches(notes, size)| && calls == Batches(notes, size)[..|calls|]
    ensures size > 0 && !halted ==> calls == Batches(notes, size)
    ensures halted ==> |calls| > 0 && rejects(calls[|calls| - 1])
    ensures |reported| == if halted then |calls| - 1 else |calls|
    ensures forall k :: 0 <= k < |reported| ==> !rejects(calls[k]) && reported[k] == Min((k + 1) * size, |notes|)
    ensures !halted && |notes| > 0 ==> reported[|reported| - 1] == |notes|
  {
    calls, reported, halted := [], [], false;
    if |notes| == 0 {
      return;
    }
    ghost var all := Batches(notes, size);
    BatchesCount(notes, size);
    CeilDivSpec(|notes|, size);
    var i := 0;
    while i < |notes|
      invariant i == |calls| * size
      invariant |calls| <= |all| && calls == all[..|calls|]
      invariant |calls| > 0 ==> (|calls| - 1) * size < |notes|
      invariant |reported| == |calls|
      invariant forall k :: 0 <= k < |calls| ==> !rejects(calls[k]) && reported[k] == Min((k + 1) * size, |notes|)
      decreases |notes| - i
    {
      var batch := notes[i..Min(i + size, |notes|)];
      LessByMul(size, |calls|, |all|);
      BatchAt(notes, size, |calls|);
      assert (|calls| + 1) * size == i + size;
      calls := calls + [batch];
      if rejects(batch) {
        halted := true;
        break;
      }
      reported := reported + [i + |batch|];
      i := i + size;
    }
    if !halted {
      assert size * |calls| >= |notes|;
      if |calls| > 0 {
        assert size * (|calls| - 1) < |notes|;
      }
      CeilDivUnique(|notes|, size, |calls|);
    }
  }

  /** A concrete plan: 300 notes of 300000 characters of JSON in all. */
  lemma PlanExample()
    ensures EstimateBatch(300000, 300) == Plan(8, 38)
  {
  }

  /**
   * The planned count can exceed the number of slices actually posted:
   * two small notes but a large payload plan eight batches of one note,
   * of which only two are posted.
   */
  lemma PlannedCountNotTight()
    ensures var p := EstimateBatch(300000, 2);
            p == Plan(8, 1) && CeilDiv(2, p.size) == 2 && (p.count - 1) * p.size >= 2
  {
  }
}
