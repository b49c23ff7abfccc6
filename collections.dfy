/**
 * The ordered sibling list primitives that the move command uses on a
 * parent's `children` (util/Collections `add` and `remove`).  Their source is
 * not part of this model; they are stated here as operations on sequences,
 * following the library's documented behaviour:
 *
 *  - `remove` deletes the first occurrence and returns its index, or -1;
 *  - `add` inserts at an index (an index past the end appends, as
 *    `Array.prototype.splice` does) or appends when no index is given
 *    (undefined, which the library treats like -1);
 *  - ASSUMPTION: when the element is already present, `add` leaves the list
 *    alone if no index is given or the element already sits at that index, and
 *    otherwise moves it to the requested index.
 */
module Collections {

  /** Concatenation is associative (a trace extended in two steps). */
  lemma AppendAssociates<T>(a: seq<T>, b: seq<T>, c: seq<T>)
    ensures (a + b) + c == a + (b + c)
  {
  }

  /** `Array.prototype.indexOf`: the first position of x, or -1. */
  function IndexOf<T(==)>(s: seq<T>, x: T): (i: int)
    ensures -1 <= i < |s|
    ensures i == -1 <==> x !in s
    ensures 0 <= i ==> s[i] == x && x !in s[..i]
  {
    if s == [] then -1
    else if s[0] == x then 0
    else
      var j := IndexOf(s[1..], x);
      assert s[1..][..if j < 0 then 0 else j] == s[1..if j < 0 then 1 else j + 1];
      if j == -1 then -1 else j + 1
  }

  /** `splice(i, 1)`: the list without its i-th entry. */
  function RemoveAt<T>(s: seq<T>, i: nat): (r: seq<T>)
    requires i < |s|
    ensures |r| == |s| - 1
    ensures multiset(r) == multiset(s) - multiset{s[i]}
  {
    assert s == s[..i] + [s[i]] + s[i + 1..];
    s[..i] + s[i + 1..]
  }

  /** Where `splice(i, 0, x)` puts x: at i, or at the end when i is past it. */
  function Clamp(i: nat, n: nat): (j: nat)
    ensures j <= n && (i <= n ==> j == i) && (i > n ==> j == n)
  {
    if i <= n then i else n
  }

  /** `splice(i, 0, x)`: x inserted before position i; an index past the end appends. */
  function InsertAt<T>(s: seq<T>, x: T, i: nat): (r: seq<T>)
    ensures |r| == |s| + 1
    ensures multiset(r) == multiset(s) + multiset{x}
  {
    var j := Clamp(i, |s|);
    assert s == s[..j] + s[j..];
    s[..j] + [x] + s[j..]
  }

  /** Putting the i-th entry back where `splice(i, 1)` took it out restores the list. */
  lemma InsertAtUndoesRemoveAt<T>(s: seq<T>, i: nat)
    requires i < |s|
    ensures InsertAt(RemoveAt(s, i), s[i], i) == s
  {
  }

  /** An entry inserted into a list that did not hold it is found first where it was put, and taking it out again restores the list. */
  lemma RemoveAtUndoesInsertAt<T>(s: seq<T>, x: T, i: nat)
    requires x !in s
    ensures IndexOf(InsertAt(s, x, i), x) == Clamp(i, |s|)
    ensures RemoveAt(InsertAt(s, x, i), Clamp(i, |s|)) == s
  {
  }

  /**
   * util/Collections `remove`: the list without the first occurrence of x,
   * paired with the index it had (-1 when x is absent and nothing changes).
   * Inserting x back at that index restores the list.
   */
  function Remove<T(==)>(s: seq<T>, x: T): (r: (seq<T>, int))
    ensures r.1 == IndexOf(s, x)
    ensures r.1 == -1 ==> r.0 == s
    ensures r.1 >= 0 ==> |r.0| == |s| - 1 && InsertAt(r.0, x, r.1) == s
    ensures multiset(r.0) == multiset(s) - multiset{x}
  {
    var i := IndexOf(s, x);
    if i == -1 then
      assert multiset(s)[x] == 0;
      (s, -1)
    else
      InsertAtUndoesRemoveAt(s, i);
      (RemoveAt(s, i), i)
  }

  /**
   * util/Collections `add` with index `idx` (-1 stands for "no index").
   * Afterwards x is present; it was added once when it was absent, and the
   * list is a rearrangement of the old one when it was present.
   */
  function Add<T(==)>(s: seq<T>, x: T, idx: int): (r: seq<T>)
    requires idx >= -1
    ensures x in r
    ensures x !in s ==> multiset(r) == multiset(s) + multiset{x}
    ensures x in s ==> multiset(r) == multiset(s)
  {
    var current := IndexOf(s, x);
    if current != -1 then
      if current == idx || idx == -1 then s
      else
        assert x in multiset(s);
        InsertAt(RemoveAt(s, current), x, idx)
    else
      assert multiset(s)[x] == 0;
      if idx != -1 then InsertAt(s, x, idx) else s + [x]
  }

  /** Adding an absent element appends it without an index, and otherwise inserts it at the index (the end when the index is past it). */
  lemma AddAbsent<T>(s: seq<T>, x: T, idx: int)
    requires x !in s && idx >= -1
    ensures Add(s, x, idx) == InsertAt(s, x, if idx == -1 then |s| else idx)
    ensures Add(s, x, idx)[Clamp(if idx == -1 then |s| else idx, |s|)] == x
    ensures idx == -1 || idx >= |s| ==> Add(s, x, idx) == s + [x]
    ensures 0 <= idx <= |s| ==> var r := Add(s, x, idx);
              r[..idx] == s[..idx] && r[idx + 1..] == s[idx..]
  {
  }

  /** Re-adding an element at the index `remove` reported restores the list. */
  lemma {:induction false} AddUndoesRemove<T>(s: seq<T>, x: T)
    requires multiset(s)[x] == 1
    ensures Remove(s, x).1 >= 0
    ensures Add(Remove(s, x).0, x, Remove(s, x).1) == s
  {
    var (rest, i) := Remove(s, x);
    assert x !in rest by {
      assert multiset(rest)[x] == 0;
    }
    AddAbsent(rest, x, i);
  }

  /** Adding an element that sits only at p: it stays when asked for p, and otherwise moves to the index asked for. */
  lemma AddPresent<T>(moved: seq<T>, rest: seq<T>, x: T, p: nat, i: nat)
    requires IndexOf(moved, x) == p && RemoveAt(moved, p) == rest
    ensures Add(moved, x, i) == if i == p then moved else InsertAt(rest, x, i)
  {
  }

  /**
   * Removing x, adding it anywhere, then re-adding it at the index `remove`
   * reported restores the list: the move is undone even when both steps act
   * on the same list.
   */
  lemma {:induction false} AddUndoesRemoveThenAdd<T>(s: seq<T>, x: T, j: int)
    requires multiset(s)[x] == 1
    requires j >= -1
    ensures Remove(s, x).1 >= 0
    ensures Add(Add(Remove(s, x).0, x, j), x, Remove(s, x).1) == s
  {
    var (rest, i) := Remove(s, x);
    assert x !in rest by {
      assert multiset(rest)[x] == 0;
    }
    var q := if j == -1 then |rest| else j;
    AddAbsent(rest, x, j);
    RemoveAtUndoesInsertAt(rest, x, q);
    var moved := InsertAt(rest, x, q);
    var p := Clamp(q, |rest|);
    AddPresent(moved, rest, x, p, i);
    if i == p {
      assert moved == InsertAt(rest, x, i) by {
        if q != i {
          assert q > |rest|;
          assert rest[..Clamp(q, |rest|)] == rest[..Clamp(i, |rest|)];
        }
      }
    }
  }
}
