/** The InventoryItems table as an ordered sequence of rows, and the pure
    operations the controller performs on it: first-match lookup by article
    number, overwriting the quantity of one row, and removing one row. */
module Table {
  import opened Items

  type Rows = seq<InventoryItem>

  /** The position of the first row whose article number is `key`, the row
      that `FirstOrDefaultAsync(i => i.ArticleNumber == key)` yields. */
  function FirstIndex(t: Rows, key: string): (r: Option<nat>)
    ensures r.Some? ==> r.value < |t| && t[r.value].articleNumber == key
    ensures r.Some? ==> forall j :: 0 <= j < r.value ==> t[j].articleNumber != key
    ensures r.None? <==> forall j :: 0 <= j < |t| ==> t[j].articleNumber != key
  {
    if |t| == 0 then None
    else if t[0].articleNumber == key then Some(0)
    else match FirstIndex(t[1..], key)
      case None => None
      case Some(i) => Some(i + 1)
  }

  /** The number of rows carrying article number `key`. */
  function Occurrences(t: Rows, key: string): (n: nat)
    ensures n <= |t|
    ensures n == 0 <==> FirstIndex(t, key).None?
  {
    if |t| == 0 then 0
    else (if t[0].articleNumber == key then 1 else 0) + Occurrences(t[1..], key)
  }

  /** The table after `item.Quantity = q` on row `i`. */
  function SetQuantityAt(t: Rows, i: nat, q: int32): (r: Rows)
    requires i < |t|
    ensures |r| == |t|
    ensures r[i].quantity == q
    ensures r[i].(quantity := t[i].quantity) == t[i]
    ensures forall j :: 0 <= j < |t| && j != i ==> r[j] == t[j]
  {
    t[i := t[i].(quantity := q)]
  }

  /** The table after `InventoryItems.Remove(item)` on row `i`. */
  function RemoveAt(t: Rows, i: nat): (r: Rows)
    requires i < |t|
    ensures |r| == |t| - 1
    ensures forall j :: 0 <= j < i ==> r[j] == t[j]
    ensures forall j :: i <= j < |r| ==> r[j] == t[j + 1]
    ensures multiset(r) + multiset{t[i]} == multiset(t)
  {
    assert t == t[..i] + [t[i]] + t[i + 1..];
    t[..i] + t[i + 1..]
  }

  /** The first-match conditions determine FirstIndex. */
  lemma FirstIndexIs(t: Rows, key: string, k: nat)
    requires k < |t| && t[k].articleNumber == key
    requires forall j :: 0 <= j < k ==> t[j].articleNumber != key
    ensures FirstIndex(t, key) == Some(k)
  {
    var r := FirstIndex(t, key);
    assert r.Some?;
    assert !(r.value < k);
  }

  lemma {:induction false} OccurrencesAppend(a: Rows, b: Rows, key: string)
    ensures Occurrences(a + b, key) == Occurrences(a, key) + Occurrences(b, key)
  {
    if |a| == 0 {
      assert a + b == b;
    } else {
      assert (a + b)[1..] == a[1..] + b;
      OccurrencesAppend(a[1..], b, key);
    }
  }

  /** Lookups are blind to quantities: overwriting a quantity never changes
      which row any key finds. */
  lemma {:induction false} SetQuantityKeepsLookups(t: Rows, i: nat, q: int32, key: string)
    requires i < |t|
    ensures FirstIndex(SetQuantityAt(t, i, q), key) == FirstIndex(t, key)
  {
    var u := SetQuantityAt(t, i, q);
    assert forall j :: 0 <= j < |t| ==> u[j].articleNumber == t[j].articleNumber;
    match FirstIndex(t, key)
    case None =>
    case Some(k) =>
      assert u[k].articleNumber == key;
  }

  /** Reading a key back after updating its first row yields that row with
      only its quantity changed. */
  lemma UpdateThenGet(t: Rows, key: string, q: int32)
    requires FirstIndex(t, key).Some?
    ensures var i := FirstIndex(t, key).value;
      && FirstIndex(SetQuantityAt(t, i, q), key) == Some(i)
      && SetQuantityAt(t, i, q)[i] == t[i].(quantity := q)
  {
    SetQuantityKeepsLookups(t, FirstIndex(t, key).value, q, key);
  }

  /** Removing row `i` removes one occurrence of its key and none of any other. */
  lemma RemoveAtOccurrences(t: Rows, i: nat, key: string)
    requires i < |t|
    ensures Occurrences(RemoveAt(t, i), key)
         == Occurrences(t, key) - (if t[i].articleNumber == key then 1 else 0)
  {
    assert t == t[..i] + ([t[i]] + t[i + 1..]);
    OccurrencesAppend(t[..i], [t[i]] + t[i + 1..], key);
    OccurrencesAppend([t[i]], t[i + 1..], key);
    OccurrencesAppend(t[..i], t[i + 1..], key);
    assert ([t[i]])[1..] == [];
  }

  /** Deleting the first row of `key` makes `key` unknown exactly when it
      occurred once; with duplicates the next one becomes visible. */
  lemma DeleteThenGet(t: Rows, key: string)
    requires FirstIndex(t, key).Some?
    ensures var u := RemoveAt(t, FirstIndex(t, key).value);
      FirstIndex(u, key).None? <==> Occurrences(t, key) == 1
  {
    RemoveAtOccurrences(t, FirstIndex(t, key).value, key);
  }

  /** Deleting a row of another key leaves that key's lookup on the same row. */
  lemma DeleteKeepsOtherLookups(t: Rows, i: nat, key: string)
    requires i < |t| && t[i].articleNumber != key
    ensures var u := RemoveAt(t, i);
      match FirstIndex(t, key)
      case None => FirstIndex(u, key).None?
      case Some(j) => FirstIndex(u, key) == Some(if j < i then j else j - 1)
                      && u[FirstIndex(u, key).value] == t[j]
  {
    var u := RemoveAt(t, i);
    match FirstIndex(t, key)
    case None =>
      assert forall j :: 0 <= j < |u| ==> u[j] == t[if j < i then j else j + 1];
    case Some(j) =>
      var k := if j < i then j else j - 1;
      assert u[k] == t[j];
      forall m | 0 <= m < k ensures u[m].articleNumber != key {
        assert u[m] == t[if m < i then m else m + 1];
      }
      FirstIndexIs(u, key, k);
  }

  /** A row added under a key that is already present stays hidden behind
      the older row; under a fresh key it is the one found. */
  lemma AddThenGet(t: Rows, x: InventoryItem)
    ensures FirstIndex(t + [x], x.articleNumber)
         == if Occurrences(t, x.articleNumber) == 0 then Some(|t|)
            else FirstIndex(t, x.articleNumber)
  {
    var u := t + [x];
    var key := x.articleNumber;
    match FirstIndex(t, key)
    case None =>
      forall m | 0 <= m < |t| ensures u[m].articleNumber != key {
        assert u[m] == t[m];
      }
      FirstIndexIs(u, key, |t|);
    case Some(j) =>
      forall m | 0 <= m < j ensures u[m].articleNumber != key {
        assert u[m] == t[m];
      }
      FirstIndexIs(u, key, j);
  }

  /** Adding a row leaves the lookup of every other key unchanged. */
  lemma AddKeepsOtherLookups(t: Rows, x: InventoryItem, key: string)
    requires x.articleNumber != key
    ensures FirstIndex(t + [x], key) == FirstIndex(t, key)
  {
    var u := t + [x];
    match FirstIndex(t, key)
    case None =>
      assert forall j :: 0 <= j < |u| ==> u[j].articleNumber != key by {
        forall j | 0 <= j < |u| ensures u[j].articleNumber != key {
          if j < |t| { assert u[j] == t[j]; }
        }
      }
    case Some(j) =>
      forall m | 0 <= m < j ensures u[m].articleNumber != key {
        assert u[m] == t[m];
      }
      FirstIndexIs(u, key, j);
  }
}
