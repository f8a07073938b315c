/** The ordered list of channel identifiers a plot shows, as values: what adding
    and removing an identifier does to the list, and what those operations keep. */
module Membership {
  import opened Samples

  /** No identifier occurs twice in the list. */
  predicate NoDups(ids: seq<Id>) {
    forall i, j :: 0 <= i < j < |ids| ==> ids[i] != ids[j]
  }

  /** The list after adding `id`: appended at the end unless already present. */
  function WithAdded(ids: seq<Id>, id: Id): (r: seq<Id>)
    ensures id in r
    ensures forall x :: x in r <==> x in ids || x == id
    ensures |ids| <= |r| <= |ids| + 1 && r[..|ids|] == ids
    ensures NoDups(ids) ==> NoDups(r)
  {
    if id in ids then ids else ids + [id]
  }

  /** The position of the first occurrence of `id`. */
  function FirstIndex(ids: seq<Id>, id: Id): (k: nat)
    requires id in ids
    ensures k < |ids| && ids[k] == id
    ensures id !in ids[..k]
  {
    if ids[0] == id then 0
    else
      var k' := FirstIndex(ids[1..], id);
      assert ids[1..][..k'] == ids[1..k' + 1];
      1 + k'
  }

  /** The list after erasing the first occurrence of `id`, if any. */
  function WithoutFirst(ids: seq<Id>, id: Id): (r: seq<Id>)
    ensures id !in ids ==> r == ids
    ensures |r| == if id in ids then |ids| - 1 else |ids|
    ensures multiset(r) == multiset(ids) - multiset{id}
  {
    if id in ids then
      var k := FirstIndex(ids, id);
      assert ids == ids[..k] + [ids[k]] + ids[k + 1..];
      ids[..k] + ids[k + 1..]
    else
      assert multiset(ids)[id] == 0;
      ids
  }

  /** Adding an identifier that is already listed changes nothing, so adding
      twice is the same as adding once. */
  lemma AddIdempotent(ids: seq<Id>, id: Id)
    ensures WithAdded(WithAdded(ids, id), id) == WithAdded(ids, id)
  {
  }

  /** Erasing keeps every other identifier in its relative order: the result is
      the list with exactly one position, the first occurrence, skipped. */
  lemma RemoveKeepsOrder(ids: seq<Id>, id: Id)
    requires id in ids
    ensures var k := FirstIndex(ids, id); var r := WithoutFirst(ids, id);
      forall j :: 0 <= j < |r| ==> r[j] == if j < k then ids[j] else ids[j + 1]
  {
  }

  /** On a list without duplicates, erasing removes `id` entirely, keeps every
      other identifier, and introduces no duplicate. */
  lemma RemoveFromNoDups(ids: seq<Id>, id: Id)
    requires NoDups(ids)
    ensures id !in WithoutFirst(ids, id)
    ensures forall x :: x in WithoutFirst(ids, id) <==> x in ids && x != id
    ensures NoDups(WithoutFirst(ids, id))
  {
  }

  /** Removing an identifier that was just added to a list not holding it gives
      back the original list. */
  lemma RemoveUndoesAdd(ids: seq<Id>, id: Id)
    requires id !in ids
    ensures WithoutFirst(WithAdded(ids, id), id) == ids
  {
  }
}
