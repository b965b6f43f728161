/**
  Reordering the root list: the effect of dropping a canvas element on a half of another
  root element (src/components/Designer.tsx:128-149, through the store's removeElement
  and addElement), stated on sequences.
*/
module Reordering {
  import opened ElementModel
  import opened DragData
  import opened DesignerContext

  /**
    The root list after moving `activeId` onto a half of `overId`: every entry with the
    moved id is removed, then the moved entry is inserted at the target's index taken
    before the removal, plus one for the bottom half.
  */
  function Reorder(root: seq<Element>, activeId: string, overId: string, half: Half): seq<Element>
    requires IndexOf(root, activeId) >= 0 && IndexOf(root, overId) >= 0
  {
    Splice(RemoveId(root, activeId), IndexOf(root, overId) + Offset(half), root[IndexOf(root, activeId)])
  }

  /** With unique ids, a reorder takes the entry out of its place and reinserts it at the clamped index. */
  lemma {:induction false} ReorderIs(s: seq<Element>, ai: nat, oi: nat, half: Half)
    requires ai < |s| && oi < |s| && UniqueIds(s)
    ensures IndexOf(s, s[ai].id) == ai && IndexOf(s, s[oi].id) == oi
    ensures Reorder(s, s[ai].id, s[oi].id, half)
            == Insert(s[..ai] + s[ai + 1..], SpliceIndex(|s| - 1, oi + Offset(half)), s[ai])
  {
    IndexOfUnique(s, ai);
    IndexOfUnique(s, oi);
    RemoveIdUnique(s, ai);
    ReorderAt(s, ai, oi, half, s[..ai] + s[ai + 1..]);
  }

  lemma {:induction false} ReorderAt(s: seq<Element>, ai: nat, oi: nat, half: Half, rest: seq<Element>)
    requires ai < |s| && oi < |s|
    requires IndexOf(s, s[ai].id) == ai && IndexOf(s, s[oi].id) == oi
    requires RemoveId(s, s[ai].id) == rest && |rest| == |s| - 1
    ensures Reorder(s, s[ai].id, s[oi].id, half) == Insert(rest, SpliceIndex(|s| - 1, oi + Offset(half)), s[ai])
  {
    var x, y := s[ai], s[oi];
    assert Reorder(s, x.id, y.id, half) == Splice(rest, oi + Offset(half), x);
    SpliceOnShorter(rest, |s| - 1, oi + Offset(half), x);
  }

  /** `Splice` on a list of known length. */
  lemma {:induction false} SpliceOnShorter(rest: seq<Element>, n: nat, index: int, x: Element)
    requires |rest| == n
    ensures Splice(rest, index, x) == Insert(rest, SpliceIndex(n, index), x)
  {
  }

  /** The insertions the three-element examples use, on plain sequences. */
  lemma InsertIntoPair(x: Element, y: Element, z: Element)
    ensures Insert([y, z], 0, x) == [x, y, z]
    ensures Insert([y, z], 1, x) == [y, x, z]
    ensures Insert([y, z], 2, x) == [y, z, x]
  {
    assert [y, z][..0] == [] && [y, z][0..] == [y, z];
    assert [y, z][..1] == [y] && [y, z][1..] == [z];
    assert [y, z][..2] == [y, z] && [y, z][2..] == [];
  }

  lemma ThreeIndices(a: Element, b: Element, c: Element)
    requires a.id != b.id && b.id != c.id && a.id != c.id
    ensures UniqueIds([a, b, c])
    ensures IndexOf([a, b, c], a.id) == 0 && IndexOf([a, b, c], b.id) == 1 && IndexOf([a, b, c], c.id) == 2
  {
    IndexOfUnique([a, b, c], 0);
    IndexOfUnique([a, b, c], 1);
    IndexOfUnique([a, b, c], 2);
  }

  /** On [A, B, C], A dropped on the bottom half of C goes last: [B, C, A]. */
  lemma ReorderFirstBelowLast(a: Element, b: Element, c: Element)
    requires a.id != b.id && b.id != c.id && a.id != c.id
    ensures IndexOf([a, b, c], a.id) == 0 && IndexOf([a, b, c], c.id) == 2
    ensures Reorder([a, b, c], a.id, c.id, Bottom) == [b, c, a]
  {
    ThreeIndices(a, b, c);
    ReorderIs([a, b, c], 0, 2, Bottom);
    assert [a, b, c][..0] + [a, b, c][1..] == [b, c];
    InsertIntoPair(a, b, c);
  }

  /** On [A, B, C], C dropped on the top half of A goes first: [C, A, B]. */
  lemma ReorderLastAboveFirst(a: Element, b: Element, c: Element)
    requires a.id != b.id && b.id != c.id && a.id != c.id
    ensures IndexOf([a, b, c], a.id) == 0 && IndexOf([a, b, c], c.id) == 2
    ensures Reorder([a, b, c], c.id, a.id, Top) == [c, a, b]
  {
    ThreeIndices(a, b, c);
    ReorderIs([a, b, c], 2, 0, Top);
    assert [a, b, c][..2] + [a, b, c][3..] == [a, b];
    InsertIntoPair(c, a, b);
  }

  /**
    On [A, B, C], A dropped on the top half of B lands after B: [B, A, C]. The target's
    index is taken before the source is removed, so a drop onto a later element's top
    half lands one place too far.
  */
  lemma ReorderFirstAboveSecond(a: Element, b: Element, c: Element)
    requires a.id != b.id && b.id != c.id && a.id != c.id
    ensures IndexOf([a, b, c], a.id) == 0 && IndexOf([a, b, c], b.id) == 1
    ensures Reorder([a, b, c], a.id, b.id, Top) == [b, a, c]
  {
    ThreeIndices(a, b, c);
    ReorderIs([a, b, c], 0, 1, Top);
    assert [a, b, c][..0] + [a, b, c][1..] == [b, c];
    InsertIntoPair(a, b, c);
  }

  /**
    Whenever the source comes before the target, a drop on the target's top half puts the
    moved entry right after the target instead of right before it.
  */
  lemma {:induction false} ReorderTopLandsBelow(s: seq<Element>, ai: nat, oi: nat)
    requires ai < oi < |s| && UniqueIds(s)
    ensures IndexOf(s, s[ai].id) == ai && IndexOf(s, s[oi].id) == oi
    ensures var r := Reorder(s, s[ai].id, s[oi].id, Top);
      |r| == |s| && r[oi - 1] == s[oi] && r[oi] == s[ai]
  {
    ReorderIs(s, ai, oi, Top);
    var rest := s[..ai] + s[ai + 1..];
    assert rest[oi - 1] == s[oi];
  }

  /** Insertion adds exactly the inserted element to the multiset of entries. */
  lemma {:induction false} InsertMultiset(s: seq<Element>, k: nat, e: Element)
    requires k <= |s|
    ensures multiset(Insert(s, k, e)) == multiset(s) + multiset{e}
  {
    assert s == s[..k] + s[k..];
  }

  /** Cutting out the entry at i removes exactly that entry from the multiset. */
  lemma {:induction false} CutMultiset(s: seq<Element>, i: nat)
    requires i < |s|
    ensures multiset(s) == multiset(s[..i] + s[i + 1..]) + multiset{s[i]}
  {
    assert s == s[..i] + [s[i]] + s[i + 1..];
  }

  /** Taking out the entry at i and inserting it anywhere keeps the same entries. */
  lemma {:induction false} ReinsertPermutes(s: seq<Element>, i: nat, k: nat)
    requires i < |s| && k < |s|
    ensures multiset(Insert(s[..i] + s[i + 1..], k, s[i])) == multiset(s)
  {
    CutMultiset(s, i);
    InsertMultiset(s[..i] + s[i + 1..], k, s[i]);
  }

  /** With unique ids, a reorder keeps exactly the same entries, and so the same ids: it only permutes the list. */
  lemma {:induction false} ReorderPermutes(s: seq<Element>, ai: nat, oi: nat, half: Half)
    requires ai < |s| && oi < |s| && UniqueIds(s)
    ensures multiset(Reorder(s, s[ai].id, s[oi].id, half)) == multiset(s)
    ensures multiset(Ids(Reorder(s, s[ai].id, s[oi].id, half))) == multiset(Ids(s))
  {
    ReorderIs(s, ai, oi, half);
    ReinsertPermutes(s, ai, SpliceIndex(|s| - 1, oi + Offset(half)));
    IdsMultiset(Reorder(s, s[ai].id, s[oi].id, half), s);
  }

  /** Lists with the same entries have the same ids. */
  lemma {:induction false} IdsMultiset(a: seq<Element>, b: seq<Element>)
    requires multiset(a) == multiset(b)
    ensures multiset(Ids(a)) == multiset(Ids(b))
    decreases |a|
  {
    if a == [] {
      assert |multiset(b)| == 0;
    } else {
      var x := a[0];
      assert a == [x] + a[1..];
      assert x in multiset(a);
      var j :| 0 <= j < |b| && b[j] == x;
      var b' := b[..j] + b[j + 1..];
      assert b == b[..j] + [x] + b[j + 1..];
      assert multiset(b) == multiset(b[..j]) + multiset{x} + multiset(b[j + 1..]);
      assert multiset(b') == multiset(b[..j]) + multiset(b[j + 1..]);
      assert multiset(a) == multiset{x} + multiset(a[1..]);
      assert multiset(a[1..]) == multiset(a) - multiset{x};
      assert multiset(b') == multiset(b) - multiset{x};
      IdsMultiset(a[1..], b');
      IdsAppend([x], a[1..]);
      IdsAppend(b[..j] + [x], b[j + 1..]);
      IdsAppend(b[..j], [x]);
      IdsAppend(b[..j], b[j + 1..]);
    }
  }

  lemma {:induction false} IdsAppend(a: seq<Element>, b: seq<Element>)
    ensures Ids(a + b) == Ids(a) + Ids(b)
  {
    assert |Ids(a + b)| == |Ids(a) + Ids(b)|;
    forall j | 0 <= j < |a + b| ensures Ids(a + b)[j] == (Ids(a) + Ids(b))[j] {
      if j < |a| {
        assert (a + b)[j] == a[j];
      } else {
        assert (a + b)[j] == b[j - |a|];
      }
    }
  }

  /**
    No self-drop guard: dropping an element on its own top half leaves the list as it was,
    and on its own bottom half moves it one place later (a last element stays last).
  */
  lemma {:induction false} SelfDrop(s: seq<Element>, i: nat)
    requires UniqueIds(s) && i < |s|
    ensures Reorder(s, s[i].id, s[i].id, Top) == s
    ensures i + 1 < |s| ==> Reorder(s, s[i].id, s[i].id, Bottom) == s[..i] + [s[i + 1], s[i]] + s[i + 2..]
    ensures i + 1 == |s| ==> Reorder(s, s[i].id, s[i].id, Bottom) == s
  {
    ReorderIs(s, i, i, Top);
    ReorderIs(s, i, i, Bottom);
    ReinsertInPlace(s, i);
  }

  /** Taking an entry out and putting it back at its index, or one further, on plain sequences. */
  lemma {:induction false} ReinsertInPlace(s: seq<Element>, i: nat)
    requires i < |s|
    ensures Insert(s[..i] + s[i + 1..], i, s[i]) == s
    ensures i + 1 < |s| ==> Insert(s[..i] + s[i + 1..], i + 1, s[i]) == s[..i] + [s[i + 1], s[i]] + s[i + 2..]
  {
    var rest := s[..i] + s[i + 1..];
    assert rest[..i] == s[..i] && rest[i..] == s[i + 1..];
    assert s == s[..i] + [s[i]] + s[i + 1..];
    if i + 1 < |s| {
      assert rest[..i + 1] == s[..i] + [s[i + 1]] && rest[i + 1..] == s[i + 2..];
    }
  }

  // ---- the evidently intended move ----

  /**
    The move the handler's comments describe: the entry lands just above the target (top
    half) or just below it (bottom half). The target's index is taken after the moved entry
    has been removed, and a drop on the element itself changes nothing.
  */
  function IntendedMove(s: seq<Element>, activeId: string, overId: string, half: Half): seq<Element>
    requires IndexOf(s, activeId) >= 0 && IndexOf(s, overId) >= 0
  {
    if activeId == overId then s
    else
      var rest := RemoveId(s, activeId);
      Splice(rest, IndexOf(rest, overId) + Offset(half), s[IndexOf(s, activeId)])
  }

  /** Taking out one entry of a list with unique ids leaves unique ids none of which is the removed one. */
  lemma {:induction false} UniqueWithout(s: seq<Element>, i: nat, rest: seq<Element>)
    requires i < |s| && UniqueIds(s) && rest == s[..i] + s[i + 1..]
    ensures UniqueIds(rest)
    ensures forall j :: 0 <= j < |rest| ==> rest[j].id != s[i].id
  {
    assert forall j :: 0 <= j < |rest| ==> rest[j] == (if j < i then s[j] else s[j + 1]);
  }

  /** Inserting an entry whose id no entry has keeps the ids unique. */
  lemma {:induction false} UniqueInsert(s: seq<Element>, k: nat, e: Element)
    requires k <= |s| && UniqueIds(s)
    requires forall j :: 0 <= j < |s| ==> s[j].id != e.id
    ensures UniqueIds(Insert(s, k, e))
  {
    var r := Insert(s, k, e);
    assert forall j :: 0 <= j < |r| ==> r[j] == (if j < k then s[j] else if j == k then e else s[j - 1]);
  }

  /** Removing an id from an insertion of the only entry with that id gives back the list. */
  lemma {:induction false} RemoveInserted(s: seq<Element>, k: nat, e: Element)
    requires k <= |s|
    requires forall j :: 0 <= j < |s| ==> s[j].id != e.id
    ensures RemoveId(Insert(s, k, e), e.id) == s
  {
    var front, back := s[..k], s[k..];
    RemoveIdAppend(front + [e], back, e.id);
    RemoveIdAppend(front, [e], e.id);
    RemoveIdAbsent(front, e.id);
    RemoveIdAbsent(back, e.id);
    assert RemoveId([e], e.id) == [];
    assert front + back == s;
  }

  /**
    The intended move with unique ids and distinct source and target: the list keeps the
    same entries and ids, the other entries keep their order, and the moved entry sits
    right before the target (top half) or right after it (bottom half).
  */
  lemma {:induction false} IntendedMoveAdjacent(s: seq<Element>, ai: nat, oi: nat, half: Half)
    requires ai < |s| && oi < |s| && ai != oi && UniqueIds(s)
    ensures IndexOf(s, s[ai].id) == ai && IndexOf(s, s[oi].id) == oi
    ensures var r := IntendedMove(s, s[ai].id, s[oi].id, half);
      && multiset(r) == multiset(s)
      && UniqueIds(r)
      && RemoveId(r, s[ai].id) == RemoveId(s, s[ai].id)
      && NextTo(r, s[ai], s[oi].id, half)
  {
    IndexOfUnique(s, ai);
    IndexOfUnique(s, oi);
    var rest := s[..ai] + s[ai + 1..];
    RemoveIdUnique(s, ai);
    UniqueWithout(s, ai, rest);
    var t := if oi < ai then oi else oi - 1;
    assert rest[t] == s[oi];
    IndexOfUnique(rest, t);
    CutMultiset(s, ai);
    IntendedMoveFrom(s, ai, oi, rest, t, half);
  }

  lemma {:induction false} IntendedMoveFrom(s: seq<Element>, ai: nat, oi: nat, rest: seq<Element>, t: nat, half: Half)
    requires ai < |s| && oi < |s| && s[ai].id != s[oi].id
    requires IndexOf(s, s[ai].id) == ai && IndexOf(s, s[oi].id) == oi
    requires RemoveId(s, s[ai].id) == rest && multiset(s) == multiset(rest) + multiset{s[ai]}
    requires UniqueIds(rest) && forall j :: 0 <= j < |rest| ==> rest[j].id != s[ai].id
    requires t < |rest| && rest[t] == s[oi] && IndexOf(rest, s[oi].id) == t
    ensures var r := IntendedMove(s, s[ai].id, s[oi].id, half);
      && multiset(r) == multiset(s)
      && UniqueIds(r)
      && RemoveId(r, s[ai].id) == RemoveId(s, s[ai].id)
      && NextTo(r, s[ai], s[oi].id, half)
  {
    var r := Insert(rest, t + Offset(half), s[ai]);
    IntendedAt(s, ai, oi, t, half, rest);
    InsertMultiset(rest, t + Offset(half), s[ai]);
    InsertNextTo(rest, t, s[ai], half);
  }

  /**
    `x` sits right before the first entry with id `targetId` (top half) or right after it
    (bottom half).
  */
  predicate NextTo(r: seq<Element>, x: Element, targetId: string, half: Half) {
    var k := IndexOf(r, targetId);
    && 0 <= k
    && (half == Top ==> 0 < k && r[k - 1] == x)
    && (half == Bottom ==> k + 1 < |r| && r[k + 1] == x)
  }

  /** Inserting a new entry at a target's index (top) or just after it (bottom) puts it next to the target. */
  lemma {:induction false} InsertNextTo(rest: seq<Element>, t: nat, x: Element, half: Half)
    requires t < |rest| && UniqueIds(rest)
    requires forall j :: 0 <= j < |rest| ==> rest[j].id != x.id
    ensures var r := Insert(rest, t + Offset(half), x);
      && UniqueIds(r)
      && RemoveId(r, x.id) == rest
      && NextTo(r, x, rest[t].id, half)
  {
    var p := t + Offset(half);
    var r := Insert(rest, p, x);
    UniqueInsert(rest, p, x);
    RemoveInserted(rest, p, x);
    if half == Top {
      assert r[p + 1] == rest[t];
      IndexOfUnique(r, p + 1);
    } else {
      assert r[t] == rest[t];
      IndexOfUnique(r, t);
    }
  }

  /** When the target comes before the source, the handler as written already does the intended move. */
  lemma {:induction false} IntendedAgreesAbove(s: seq<Element>, ai: nat, oi: nat, half: Half)
    requires ai < |s| && oi < ai && UniqueIds(s)
    ensures IndexOf(s, s[ai].id) == ai && IndexOf(s, s[oi].id) == oi
    ensures IntendedMove(s, s[ai].id, s[oi].id, half) == Reorder(s, s[ai].id, s[oi].id, half)
  {
    IndexOfUnique(s, ai);
    IndexOfUnique(s, oi);
    var rest := s[..ai] + s[ai + 1..];
    RemoveIdUnique(s, ai);
    UniqueWithout(s, ai, rest);
    assert rest[oi] == s[oi];
    IndexOfUnique(rest, oi);
    ReorderAt(s, ai, oi, half, rest);
    IntendedAt(s, ai, oi, oi, half, rest);
  }

  lemma {:induction false} IntendedAt(s: seq<Element>, ai: nat, oi: nat, t: nat, half: Half, rest: seq<Element>)
    requires ai < |s| && oi < |s| && s[ai].id != s[oi].id
    requires IndexOf(s, s[ai].id) == ai && IndexOf(s, s[oi].id) == oi
    requires RemoveId(s, s[ai].id) == rest
    requires t < |rest| && IndexOf(rest, s[oi].id) == t
    ensures IntendedMove(s, s[ai].id, s[oi].id, half) == Insert(rest, t + Offset(half), s[ai])
  {
    assert IntendedMove(s, s[ai].id, s[oi].id, half) == Splice(rest, t + Offset(half), s[ai]);
  }

  /** On [A, B, C], A dropped on the top half of B stays where it is under the intended move. */
  lemma IntendedFirstAboveSecond(a: Element, b: Element, c: Element)
    requires a.id != b.id && b.id != c.id && a.id != c.id
    ensures IndexOf([a, b, c], a.id) == 0 && IndexOf([a, b, c], b.id) == 1
    ensures IntendedMove([a, b, c], a.id, b.id, Top) == [a, b, c]
  {
    IndexOfFirst([a, b, c], 0);
    IndexOfFirst([a, b, c], 1);
    IndexOfFirst([b, c], 0);
    RemoveFirstOfThree(a, b, c);
    IntendedAt([a, b, c], 0, 1, 0, Top, [b, c]);
    InsertIntoPair(a, b, c);
  }

  lemma RemoveFirstOfThree(a: Element, b: Element, c: Element)
    requires a.id != b.id && a.id != c.id
    ensures RemoveId([a, b, c], a.id) == [b, c] == [a, b, c][..0] + [a, b, c][1..]
  {
    assert [a, b, c][1..] == [b, c] && [b, c][1..] == [c] && [c][1..] == [];
    assert RemoveId([c], a.id) == [c] + RemoveId([], a.id) == [c];
    assert RemoveId([b, c], a.id) == [b] + [c];
  }
}
