/**
 * The change-detection fingerprint of a row (`_row_hash`): the row's
 * `key=value` pairs, in the order of their sorted keys, joined with `|`, then
 * hashed with SHA-256.
 */
module Fingerprint {
  import opened Text
  import opened Sorting

  /**
   * The SHA-256 digest of a pre-image. SHA-256 itself is not modelled; the
   * constructor stands in for it, so two digests are equal exactly when
   * their pre-images are (collisions are taken never to occur).
   */
  datatype Digest = Sha256Of(preimage: string)

  /** One dictionary item: a column name and the `str()` of its value. */
  type Item = (string, string)

  /** Items ordered by column name only, as `sorted(row.keys())` orders them. */
  predicate KeyLe(a: Item, b: Item) {
    LexLe(a.0, b.0)
  }

  /** A dictionary's items: no two carry the same column name. */
  ghost predicate DistinctColumns(items: seq<Item>) {
    forall i, j :: 0 <= i < j < |items| ==> items[i].0 != items[j].0
  }

  /** `"|".join(parts)` */
  function JoinBars(parts: seq<string>): string {
    if parts == [] then ""
    else if |parts| == 1 then parts[0]
    else parts[0] + "|" + JoinBars(parts[1..])
  }

  /** `f"{k}={v}"` for every item, in order. */
  function Pairs(items: seq<Item>): (r: seq<string>)
    ensures |r| == |items|
    ensures forall i :: 0 <= i < |items| ==> r[i] == items[i].0 + "=" + items[i].1
  {
    if items == [] then [] else [items[0].0 + "=" + items[0].1] + Pairs(items[1..])
  }

  /** The string `_row_hash` hashes. */
  function Preimage(items: seq<Item>): string {
    JoinBars(Pairs(Sort(items, KeyLe)))
  }

  /** `_row_hash(row)` */
  function RowHash(items: seq<Item>): Digest {
    Sha256Of(Preimage(items))
  }

  lemma KeyLeTotalPreorder()
    ensures TotalPreorder(KeyLe)
  {
    forall a: Item, b: Item ensures KeyLe(a, b) || KeyLe(b, a) {
      LexLeTotal(a.0, b.0);
    }
    forall a: Item, b: Item, c: Item | KeyLe(a, b) && KeyLe(b, c) ensures KeyLe(a, c) {
      LexLeTransitive(a.0, b.0, c.0);
    }
  }

  /**
   * The fingerprint does not depend on the order in which the dictionary
   * holds its items: any rearrangement of the same items, with distinct
   * column names, has the same pre-image.
   */
  lemma RowHashOrderFree(items: seq<Item>, other: seq<Item>)
    requires DistinctColumns(items) && multiset(items) == multiset(other)
    ensures RowHash(items) == RowHash(other)
  {
    KeyLeTotalPreorder();
    var a := Sort(items, KeyLe);
    var b := Sort(other, KeyLe);
    SortSorted(items, KeyLe);
    SortSorted(other, KeyLe);
    forall x, y | x in a && y in a && KeyLe(x, y) && KeyLe(y, x) ensures x == y {
      LexLeAntisymmetric(x.0, y.0);
      assert x in multiset(items) && y in multiset(items);
      var i :| 0 <= i < |items| && items[i] == x;
      var j :| 0 <= j < |items| && items[j] == y;
      assert x.0 == y.0;
    }
    SortedUnique(a, b, KeyLe);
  }

  /** A known key-ordered arrangement of a dictionary's items gives its pre-image. */
  lemma PreimageOfSorted(items: seq<Item>, sorted: seq<Item>)
    requires DistinctColumns(items) && multiset(items) == multiset(sorted)
    requires forall i :: 0 <= i < |sorted| - 1 ==> LexLe(sorted[i].0, sorted[i + 1].0)
    ensures Preimage(items) == JoinBars(Pairs(sorted))
  {
    KeyLeTotalPreorder();
    AdjacentSorted(sorted, KeyLe);
    RowHashOrderFree(items, sorted);
    SortSorted(items, KeyLe);
    SortSorted(sorted, KeyLe);
    var a := Sort(sorted, KeyLe);
    forall x, y | x in a && y in a && KeyLe(x, y) && KeyLe(y, x) ensures x == y {
      LexLeAntisymmetric(x.0, y.0);
      assert x in multiset(items) && y in multiset(items);
      var i :| 0 <= i < |items| && items[i] == x;
      var j :| 0 <= j < |items| && items[j] == y;
      assert x.0 == y.0;
    }
    SortedUnique(a, sorted, KeyLe);
  }
}
