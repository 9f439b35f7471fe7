/** The `#[repr(C)]` layout rule that `std::mem::size_of` and `memoffset::offset_of!`
    report for the structures the program hands to the GPU: fields in declaration
    order, each at the first offset past the previous field that is a multiple of its
    alignment, and the whole rounded up to a multiple of the largest alignment. */
module ReprC {

  /** One field of a `repr(C)` structure: its size and its (non-zero) alignment. */
  datatype Field = Field(size: nat, align: nat)

  predicate WellFormed(fields: seq<Field>) {
    forall k :: 0 <= k < |fields| ==> fields[k].align > 0
  }

  /** The first multiple of `align` at or after `n` (the only multiple in
      `[n, n + align)`). */
  function AlignUp(n: nat, align: nat): (r: nat)
    requires align > 0
    ensures r % align == 0
    ensures n <= r < n + align
  {
    var rest := n % align;
    if rest == 0 then n
    else
      var r := align * (n / align + 1);
      assert r == n + (align - rest) by {
        assert n == align * (n / align) + rest;
        assert align * (n / align + 1) == align * (n / align) + align;
      }
      MultipleModZero(align, n / align + 1);
      r
  }

  /** A multiple of `a` leaves no remainder. */
  lemma MultipleModZero(a: nat, k: nat)
    requires a > 0
    ensures (a * k) % a == 0
  {
    var d := (a * k) / a;
    var m := (a * k) % a;
    assert a * k == a * d + m;
    assert a * (k - d) == m by {
      assert a * (k - d) == a * k - a * d;
    }
    SmallProduct(a, k - d);
  }

  /** The only multiple of `a` in `[0, a)` is 0. */
  lemma SmallProduct(a: int, t: int)
    requires a > 0 && 0 <= a * t < a
    ensures t == 0
  {
  }

  /** The offsets of `fields` laid out one after another from `start`. */
  function OffsetsFrom(fields: seq<Field>, start: nat): (offsets: seq<nat>)
    requires WellFormed(fields)
    ensures |offsets| == |fields|
    ensures forall k :: 0 <= k < |fields| ==> offsets[k] % fields[k].align == 0
    ensures |fields| > 0 ==> offsets[0] == AlignUp(start, fields[0].align)
    ensures forall k :: 0 <= k < |fields| - 1 ==>
              offsets[k + 1] == AlignUp(offsets[k] + fields[k].size, fields[k + 1].align)
    decreases |fields|
  {
    if |fields| == 0 then []
    else
      var first := AlignUp(start, fields[0].align);
      var rest := OffsetsFrom(fields[1..], first + fields[0].size);
      var offsets := [first] + rest;
      assert forall k :: 1 <= k < |fields| ==> fields[1..][k - 1] == fields[k] && offsets[k] == rest[k - 1];
      offsets
  }

  /** `offset_of!` for every field. */
  function Offsets(fields: seq<Field>): (offsets: seq<nat>)
    requires WellFormed(fields)
    ensures |offsets| == |fields|
  {
    OffsetsFrom(fields, 0)
  }

  /** The alignment of the structure: the largest field alignment (1 for no fields). */
  function StructAlign(fields: seq<Field>): (a: nat)
    requires WellFormed(fields)
    ensures a > 0
    ensures forall k :: 0 <= k < |fields| ==> fields[k].align <= a
    decreases |fields|
  {
    if |fields| == 0 then 1
    else
      var rest := StructAlign(fields[1..]);
      assert forall k :: 1 <= k < |fields| ==> fields[1..][k - 1] == fields[k];
      if fields[0].align > rest then fields[0].align else rest
  }

  /** `size_of`: the end of the last field, rounded up to the structure's alignment. */
  function SizeOf(fields: seq<Field>): nat
    requires WellFormed(fields)
  {
    var offsets := Offsets(fields);
    var end := if |fields| == 0 then 0 else offsets[|fields| - 1] + fields[|fields| - 1].size;
    AlignUp(end, StructAlign(fields))
  }

  /** The layout is sound: every field is aligned, fields appear in declaration order
      without overlapping, each starts as early as its alignment allows, and all of
      them fit in the structure, whose size is a multiple of its alignment. */
  lemma {:induction false} LayoutSound(fields: seq<Field>)
    requires WellFormed(fields)
    ensures var offsets := Offsets(fields);
            && (forall k :: 0 <= k < |fields| ==> offsets[k] % fields[k].align == 0)
            && (forall k :: 0 <= k < |fields| - 1 ==>
                  offsets[k] + fields[k].size <= offsets[k + 1] < offsets[k] + fields[k].size + fields[k + 1].align)
            && (forall k :: 0 <= k < |fields| ==> offsets[k] + fields[k].size <= SizeOf(fields))
            && SizeOf(fields) % StructAlign(fields) == 0
  {
    var offsets := Offsets(fields);
    if |fields| > 0 {
      var last := |fields| - 1;
      var end := offsets[last] + fields[last].size;
      assert SizeOf(fields) == AlignUp(end, StructAlign(fields));
      EndsBeforeLast(fields, offsets, last);
    }
  }

  /** Every field ends no later than the last one does. */
  lemma {:induction false} EndsBeforeLast(fields: seq<Field>, offsets: seq<nat>, j: nat)
    requires WellFormed(fields) && offsets == Offsets(fields) && j < |fields|
    ensures forall k :: 0 <= k <= j ==> offsets[k] + fields[k].size <= offsets[j] + fields[j].size
  {
    if j > 0 {
      EndsBeforeLast(fields, offsets, j - 1);
      assert offsets[j - 1] + fields[j - 1].size <= offsets[j];
    }
  }

  /** An aligned offset is its own alignment. */
  lemma AlignedStays(n: nat, align: nat)
    requires align > 0 && n % align == 0
    ensures AlignUp(n, align) == n
  {
  }

  /** The sum of two multiples of `a` is one. */
  lemma AlignedSum(a: nat, x: nat, y: nat)
    requires a > 0 && x % a == 0 && y % a == 0
    ensures (x + y) % a == 0
  {
    assert x == a * (x / a);
    assert y == a * (y / a);
    assert x + y == a * (x / a + y / a);
    MultipleModZero(a, x / a + y / a);
  }

  /** `n` copies of a multiple of `a` make a multiple of `a`. */
  lemma AlignedMultiple(a: nat, s: nat, n: nat)
    requires a > 0 && s % a == 0
    ensures (n * s) % a == 0
  {
    assert s == a * (s / a);
    assert n * s == a * (n * (s / a));
    MultipleModZero(a, n * (s / a));
  }

  /** One more field of size `s` moves the offset by `s`. */
  lemma MulSucc(k: nat, s: nat)
    ensures (k + 1) * s == k * s + s
  {
  }

  /** Fields that are all `f`, whose size is a multiple of its alignment, laid out from
      an aligned `start` leave no padding: field `k` starts `k` sizes past `start`. */
  lemma {:induction false} PackedOffsets(fields: seq<Field>, start: nat, f: Field)
    requires f.align > 0 && f.size % f.align == 0 && start % f.align == 0
    requires forall k :: 0 <= k < |fields| ==> fields[k] == f
    ensures WellFormed(fields)
    ensures forall k :: 0 <= k < |fields| ==> OffsetsFrom(fields, start)[k] == start + k * f.size
    decreases |fields|
  {
    if |fields| > 0 {
      var rest := fields[1..];
      var next := start + f.size;
      AlignedSum(f.align, start, f.size);
      assert forall k :: 0 <= k < |rest| ==> rest[k] == fields[k + 1];
      PackedOffsets(rest, next, f);
      AlignedStays(start, f.align);
      var tail := OffsetsFrom(rest, next);
      var offsets := OffsetsFrom(fields, start);
      assert offsets == [start] + tail;
      forall k | 0 <= k < |fields|
        ensures offsets[k] == start + k * f.size
      {
        if k > 0 {
          assert offsets[k] == tail[k - 1];
          MulSucc(k - 1, f.size);
        }
      }
    }
  }

  /** A structure of fields that are all `f` is aligned like `f`. */
  lemma {:induction false} PackedAlign(fields: seq<Field>, f: Field)
    requires f.align > 0 && |fields| > 0
    requires forall k :: 0 <= k < |fields| ==> fields[k] == f
    ensures WellFormed(fields) && StructAlign(fields) == f.align
    decreases |fields|
  {
    if |fields| > 1 {
      assert forall k :: 0 <= k < |fields| - 1 ==> fields[1..][k] == fields[k + 1];
      PackedAlign(fields[1..], f);
    }
  }

  /** `n` fields that are all `f`, with a size that is a multiple of the alignment, sit
      back to back from offset 0, and the structure is exactly `n` of them long. */
  lemma PackedLayout(fields: seq<Field>, f: Field)
    requires f.align > 0 && f.size % f.align == 0
    requires forall k :: 0 <= k < |fields| ==> fields[k] == f
    ensures WellFormed(fields)
    ensures forall k :: 0 <= k < |fields| ==> Offsets(fields)[k] == k * f.size
    ensures SizeOf(fields) == |fields| * f.size
  {
    PackedOffsets(fields, 0, f);
    if |fields| > 0 {
      PackedAlign(fields, f);
      var n := |fields|;
      MulSucc(n - 1, f.size);
      assert Offsets(fields)[n - 1] + f.size == n * f.size;
      AlignedMultiple(f.align, f.size, n);
      AlignedStays(n * f.size, f.align);
    }
  }
}
