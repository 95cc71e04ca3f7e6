/** The wear classifier: five half-open float buckets, scanned in order (api/checker.py). */
module Wear {
  import opened Common

  /** A half-open float interval `[low, high)` and the wear name it stands for. */
  datatype Bucket = Bucket(low: real, high: real, name: string)

  /** `WEAR_BUCKETS`, from the most pristine wear to the most worn. */
  const WearBuckets: seq<Bucket> := [
    Bucket(0.00, 0.07, "Factory New"),
    Bucket(0.07, 0.15, "Minimal Wear"),
    Bucket(0.15, 0.38, "Field-Tested"),
    Bucket(0.38, 0.45, "Well-Worn"),
    Bucket(0.45, 1.00, "Battle-Scarred")
  ]

  predicate Contains(b: Bucket, v: real) {
    b.low <= v < b.high
  }

  /** The index of the first bucket of `bs` that contains `v`, scanning from the front. */
  function FirstMatch(bs: seq<Bucket>, v: real): (r: Option<nat>)
    ensures r.Some? ==> r.value < |bs| && Contains(bs[r.value], v)
    ensures r.Some? ==> forall j :: 0 <= j < r.value ==> !Contains(bs[j], v)
    ensures r.None? ==> forall j :: 0 <= j < |bs| ==> !Contains(bs[j], v)
  {
    if |bs| == 0 then None
    else if Contains(bs[0], v) then Some(0)
    else match FirstMatch(bs[1..], v)
      case None => None
      case Some(i) => Some(i + 1)
  }

  /** `classify_wear`: the name of the first bucket containing `v`, or the out-of-range error. */
  function ClassifyWear(v: real): (r: Result<string, Error>)
    ensures r.Ok? ==> exists i :: 0 <= i < |WearBuckets| && Contains(WearBuckets[i], v) && r.value == WearBuckets[i].name
    ensures r.Err? ==> r.error == OutOfRange && forall i :: 0 <= i < |WearBuckets| ==> !Contains(WearBuckets[i], v)
  {
    match FirstMatch(WearBuckets, v)
    case Some(i) => Ok(WearBuckets[i].name)
    case None => Err(OutOfRange)
  }

  /** `bs` cuts `[lo, hi)` into non-empty, adjacent half-open buckets, in ascending order. */
  predicate Tiles(bs: seq<Bucket>, lo: real, hi: real)
    decreases |bs|
  {
    if |bs| == 0 then lo == hi
    else bs[0].low == lo && bs[0].low < bs[0].high && Tiles(bs[1..], bs[0].high, hi)
  }

  /** Every bucket of a tiling lies inside the tiled interval. */
  lemma {:induction false} TilesBounds(bs: seq<Bucket>, lo: real, hi: real, i: nat)
    requires Tiles(bs, lo, hi) && i < |bs|
    ensures lo <= bs[i].low < bs[i].high <= hi
  {
    if i == 0 {
      if |bs| > 1 {
        TilesBounds(bs[1..], bs[0].high, hi, 0);
      }
    } else {
      TilesBounds(bs[1..], bs[0].high, hi, i - 1);
    }
  }

  /** Earlier buckets of a tiling end where or before later ones begin. */
  lemma {:induction false} TilesSorted(bs: seq<Bucket>, lo: real, hi: real, i: nat, j: nat)
    requires Tiles(bs, lo, hi) && i < j < |bs|
    ensures bs[i].high <= bs[j].low
  {
    if i == 0 {
      TilesBounds(bs[1..], bs[0].high, hi, j - 1);
    } else {
      TilesSorted(bs[1..], bs[0].high, hi, i - 1, j - 1);
    }
  }

  /** Every value of the tiled interval falls into some bucket. */
  lemma {:induction false} TilesCover(bs: seq<Bucket>, lo: real, hi: real, v: real)
    requires Tiles(bs, lo, hi) && lo <= v < hi
    ensures FirstMatch(bs, v).Some?
  {
    if !Contains(bs[0], v) {
      TilesCover(bs[1..], bs[0].high, hi, v);
    }
  }

  /** No value of a tiling falls into two buckets. */
  lemma TilesDisjoint(bs: seq<Bucket>, lo: real, hi: real, v: real, i: nat, j: nat)
    requires Tiles(bs, lo, hi) && i < |bs| && j < |bs|
    requires Contains(bs[i], v) && Contains(bs[j], v)
    ensures i == j
  {
    if i < j {
      TilesSorted(bs, lo, hi, i, j);
    } else if j < i {
      TilesSorted(bs, lo, hi, j, i);
    }
  }

  /** The five wear buckets are sorted, contiguous and cover exactly `[0, 1)`. */
  lemma WearBucketsTile()
    ensures Tiles(WearBuckets, 0.0, 1.0)
  {
    assert WearBuckets[1..][1..][1..][1..][1..] == [];
  }

  /** The classifier succeeds exactly on `[0, 1)` (so 1.0 itself is rejected), and then
      returns the name of the one bucket that contains the value. */
  lemma ClassifyWearSpec(v: real)
    ensures ClassifyWear(v).Ok? <==> 0.0 <= v < 1.0
    ensures ClassifyWear(v).Err? ==> ClassifyWear(v).error == OutOfRange
    ensures forall i :: 0 <= i < |WearBuckets| && Contains(WearBuckets[i], v) ==>
              ClassifyWear(v) == Ok(WearBuckets[i].name)
  {
    WearBucketsTile();
    if 0.0 <= v < 1.0 {
      TilesCover(WearBuckets, 0.0, 1.0, v);
    }
    match FirstMatch(WearBuckets, v)
    case None =>
      if 0.0 <= v < 1.0 {
        assert false;
      }
    case Some(k) =>
      TilesBounds(WearBuckets, 0.0, 1.0, k);
      forall i | 0 <= i < |WearBuckets| && Contains(WearBuckets[i], v)
        ensures ClassifyWear(v) == Ok(WearBuckets[i].name)
      {
        TilesDisjoint(WearBuckets, 0.0, 1.0, v, i, k);
      }
  }

  /** Each inner boundary belongs to the higher bucket; both ends of `[0, 1)` behave as half-open. */
  lemma ClassifyWearBoundaries()
    ensures ClassifyWear(0.0) == Ok("Factory New")
    ensures ClassifyWear(0.07) == Ok("Minimal Wear")
    ensures ClassifyWear(0.15) == Ok("Field-Tested")
    ensures ClassifyWear(0.38) == Ok("Well-Worn")
    ensures ClassifyWear(0.45) == Ok("Battle-Scarred")
    ensures ClassifyWear(-0.01) == Err(OutOfRange)
    ensures ClassifyWear(1.0) == Err(OutOfRange)
  {
    ClassifyWearSpec(0.0);
    ClassifyWearSpec(0.07);
    ClassifyWearSpec(0.15);
    ClassifyWearSpec(0.38);
    ClassifyWearSpec(0.45);
    ClassifyWearSpec(-0.01);
    ClassifyWearSpec(1.0);
  }

  /** A higher float never maps to a more pristine wear bucket. */
  lemma ClassifyWearMonotone(v: real, w: real)
    requires 0.0 <= v <= w < 1.0
    ensures FirstMatch(WearBuckets, v).Some? && FirstMatch(WearBuckets, w).Some?
    ensures FirstMatch(WearBuckets, v).value <= FirstMatch(WearBuckets, w).value
  {
    WearBucketsTile();
    TilesCover(WearBuckets, 0.0, 1.0, v);
    TilesCover(WearBuckets, 0.0, 1.0, w);
    var i, j := FirstMatch(WearBuckets, v).value, FirstMatch(WearBuckets, w).value;
    if j < i {
      TilesSorted(WearBuckets, 0.0, 1.0, j, i);
    }
  }
}
