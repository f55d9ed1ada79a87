/**
 * The ordered holder container: a list of slots, each holding a holder or
 * nothing (`None`), used for bays and racks. It tells its owning fit about
 * every holder that enters or leaves it, and never ends in an empty slot.
 */
module HolderContainer {
  import opened Wrappers
  import opened Holders

  type Slots = seq<Option<Holder>>

  /** A call the container makes on its owning fit. */
  datatype Notification = AddHolder(holder: Holder) | RemoveHolder(holder: Holder)

  datatype ContainerError = ValueError | IndexError | SlotTaken

  /** Result of a container operation: done, or the error it raised. */
  datatype Outcome = Ok | Error(error: ContainerError)

  /** What `remove` is given: a slot value to look for (a holder or `None`), or an index. */
  datatype RemoveTarget = Value(slot: Option<Holder>) | Index(index: nat)

  /** Either no slots at all, or an occupied last slot. */
  predicate NoTrailingEmpty(s: Slots) {
    |s| == 0 || s[|s| - 1].Some?
  }

  /** An occupied slot, as a multiset of at most one element; empty slots count for nothing. */
  ghost function SlotOccupant(o: Option<Holder>): multiset<Option<Holder>> {
    if o.Some? then multiset{o} else multiset{}
  }

  /** The occupied slots, with multiplicity. */
  ghost function Occupants(s: Slots): multiset<Option<Holder>> {
    multiset(s)[None := 0]
  }

  /** The holders the owner was told about by `_addHolder`. */
  ghost function Added(calls: seq<Notification>): multiset<Option<Holder>> {
    if calls == [] then multiset{}
    else Added(calls[..|calls| - 1]) +
         (if calls[|calls| - 1].AddHolder? then multiset{Some(calls[|calls| - 1].holder)} else multiset{})
  }

  /** The holders the owner was told about by `_removeHolder`. */
  ghost function Removed(calls: seq<Notification>): multiset<Option<Holder>> {
    if calls == [] then multiset{}
    else Removed(calls[..|calls| - 1]) +
         (if calls[|calls| - 1].RemoveHolder? then multiset{Some(calls[|calls| - 1].holder)} else multiset{})
  }

  /** The slots without their trailing empty ones. */
  function Trimmed(s: Slots): (r: Slots)
    ensures NoTrailingEmpty(r)
    ensures r <= s
    ensures forall k :: |r| <= k < |s| ==> s[k].None?
  {
    if NoTrailingEmpty(s) then s else Trimmed(s[..|s| - 1])
  }

  /** `del s[k]`: slot `k` goes, every later slot moves one place to the left. */
  function Delete(s: Slots, k: nat): (r: Slots)
    requires k < |s|
    ensures |r| == |s| - 1
    ensures forall j :: 0 <= j < k ==> r[j] == s[j]
    ensures forall j :: k <= j < |r| ==> r[j] == s[j + 1]
  {
    s[..k] + s[k + 1..]
  }

  /**
   * The slots after `place(index, holder)` into a free slot: padded with
   * empty slots up to `index` when needed, `holder` at `index`, all else kept.
   */
  function Placed(s: Slots, index: nat, holder: Holder): (r: Slots)
    ensures |r| == if index < |s| then |s| else index + 1
    ensures r[index] == Some(holder)
    ensures forall k :: 0 <= k < |r| && k != index ==> r[k] == if k < |s| then s[k] else None
  {
    (if index < |s| then s else s + seq(index + 1 - |s|, _ => None))[index := Some(holder)]
  }

  /** `list.index`: the first slot equal to `v`, or `None` when there is none. */
  function IndexOf(s: Slots, v: Option<Holder>): (r: Option<nat>)
    ensures r.Some? ==> r.value < |s| && s[r.value] == v && v !in s[..r.value]
    ensures r.None? <==> v !in s
  {
    if s == [] then None
    else if s[0] == v then Some(0)
    else match IndexOf(s[1..], v)
      case None => None
      case Some(k) => assert s[..k + 1] == [s[0]] + s[1..][..k]; Some(k + 1)
  }

  /** The slot `remove(target)` takes away, or `None` when it raises. */
  function Locate(s: Slots, target: RemoveTarget): (r: Option<nat>)
    ensures r.Some? ==> r.value < |s|
    ensures target.Index? ==> (r.Some? <==> target.index < |s|)
    ensures target.Value? ==> (r.Some? <==> target.slot in s)
  {
    match target
    case Value(v) => IndexOf(s, v)
    case Index(i) => if i < |s| then Some(i) else None
  }

  lemma IndexOfFirst(s: Slots, v: Option<Holder>, i: nat)
    requires i < |s| && s[i] == v && v !in s[..i]
    ensures IndexOf(s, v) == Some(i)
  {
  }

  lemma OccupantsAppend(s: Slots, x: Option<Holder>)
    ensures Occupants(s + [x]) == Occupants(s) + SlotOccupant(x)
  {
    assert multiset(s + [x]) == multiset(s) + multiset{x};
  }

  /** What one more call adds to the owner's view. */
  lemma CallsAppend(calls: seq<Notification>, n: Notification)
    ensures Added(calls + [n]) == Added(calls) + (if n.AddHolder? then multiset{Some(n.holder)} else multiset{})
    ensures Removed(calls + [n]) == Removed(calls) + (if n.RemoveHolder? then multiset{Some(n.holder)} else multiset{})
  {
    assert (calls + [n])[..|calls|] == calls;
  }

  /** Deleting a slot loses exactly that slot's holder. */
  lemma OccupantsDelete(s: Slots, k: nat)
    requires k < |s|
    ensures Occupants(Delete(s, k)) + SlotOccupant(s[k]) == Occupants(s)
  {
    assert s == s[..k] + [s[k]] + s[k + 1..];
    assert multiset(s) == multiset(s[..k]) + multiset{s[k]} + multiset(s[k + 1..]);
  }

  /** Overwriting a slot swaps that slot's holder for the new one. */
  lemma OccupantsUpdate(s: Slots, k: nat, x: Option<Holder>)
    requires k < |s|
    ensures Occupants(s[k := x]) + SlotOccupant(s[k]) == Occupants(s) + SlotOccupant(x)
  {
    assert multiset(s[k := x]) == multiset(s) - multiset{s[k]} + multiset{x};
  }

  /** Trimming drops only empty slots: no holder is lost. */
  lemma {:induction false} TrimmedKeepsOccupants(s: Slots)
    ensures Occupants(Trimmed(s)) == Occupants(s)
    decreases |s|
  {
    if !NoTrailingEmpty(s) {
      TrimmedKeepsOccupants(s[..|s| - 1]);
      assert s == s[..|s| - 1] + [None];
      OccupantsAppend(s[..|s| - 1], None);
    }
  }

  /** Once no holder is left, trimming leaves no slot at all, and conversely. */
  lemma {:induction false} TrimmedEmptyIffNoOccupants(s: Slots)
    ensures Trimmed(s) == [] <==> Occupants(s) == multiset{}
    decreases |s|
  {
    if s != [] {
      TrimmedEmptyIffNoOccupants(s[..|s| - 1]);
      assert s == s[..|s| - 1] + [s[|s| - 1]];
      OccupantsAppend(s[..|s| - 1], s[|s| - 1]);
    }
  }

  /** Empty slots appended at the end vanish under trimming. */
  lemma {:induction false} TrimmedIgnoresEmptyTail(s: Slots, n: nat)
    ensures Trimmed(s + seq(n, _ => None)) == Trimmed(s)
    decreases n
  {
    var padded := s + seq(n, _ => None);
    if n > 0 {
      assert padded[..|padded| - 1] == s + seq(n - 1, _ => None);
      TrimmedIgnoresEmptyTail(s, n - 1);
    } else {
      assert padded == s;
    }
  }

  /** `append(h1)`, `place(3, h2)`, `place(6, h3)`: seven slots, gaps at 1, 2, 4 and 5. */
  lemma PlaceScenario(h1: Holder, h2: Holder, h3: Holder)
    ensures Placed(Placed([Some(h1)], 3, h2), 6, h3) == [Some(h1), None, None, Some(h2), None, None, Some(h3)]
  {
  }

  /** Removing h2 from those slots shifts h3 to slot 5 and keeps the gaps before it. */
  lemma RemoveMiddleScenario(h1: Holder, h2: Holder, h3: Holder)
    requires h1 != h2 && h2 != h3
    ensures IndexOf([Some(h1), None, None, Some(h2), None, None, Some(h3)], Some(h2)) == Some(3)
    ensures Trimmed(Delete([Some(h1), None, None, Some(h2), None, None, Some(h3)], 3)) ==
              [Some(h1), None, None, None, None, Some(h3)]
  {
    var full := [Some(h1), None, None, Some(h2), None, None, Some(h3)];
    IndexOfFirst(full, Some(h2), 3);
    assert Delete(full, 3) == [Some(h1), None, None, None, None, Some(h3)];
  }

  /** Removing h3 next drops the gaps that end up trailing: only `[h1]` remains. */
  lemma RemoveLastScenario(h1: Holder, h3: Holder)
    requires h1 != h3
    ensures IndexOf([Some(h1), None, None, None, None, Some(h3)], Some(h3)) == Some(5)
    ensures Trimmed(Delete([Some(h1), None, None, None, None, Some(h3)], 5)) == [Some(h1)]
  {
    var gapped := [Some(h1), None, None, None, None, Some(h3)];
    IndexOfFirst(gapped, Some(h3), 5);
    assert Delete(gapped, 5) == [Some(h1)] + seq(4, _ => None);
    TrimmedIgnoresEmptyTail([Some(h1)], 4);
  }

  /** `place(1, h1)`, `place(3, h2)`, then `remove(None)`: the first gap goes, the inner one stays. */
  lemma RemoveNoneScenario(h1: Holder, h2: Holder)
    ensures Placed(Placed([], 1, h1), 3, h2) == [None, Some(h1), None, Some(h2)]
    ensures IndexOf([None, Some(h1), None, Some(h2)], None) == Some(0)
    ensures Trimmed(Delete([None, Some(h1), None, Some(h2)], 0)) == [Some(h1), None, Some(h2)]
  {
    assert Delete([None, Some(h1), None, Some(h2)], 0) == [Some(h1), None, Some(h2)];
  }

  /** The owner knows exactly the holders in the slots: those added minus those removed. */
  ghost predicate OwnerInSync(s: Slots, calls: seq<Notification>) {
    Occupants(s) + Removed(calls) == Added(calls)
  }

  /** Multiset bookkeeping for one step: `gained` entered the slots and was announced. */
  lemma SyncStep<T>(o: multiset<T>, r: multiset<T>, a: multiset<T>,
                   o': multiset<T>, r': multiset<T>, a': multiset<T>,
                   gained: multiset<T>, lost: multiset<T>)
    requires o + r == a
    requires o' + lost == o + gained && r' == r + lost && a' == a + gained
    ensures o' + r' == a'
  {
    calc {
      o' + r';
    ==
      o' + (r + lost);
    ==
      (o' + lost) + r;
    ==
      (o + gained) + r;
    ==
      (o + r) + gained;
    }
  }

  lemma AppendKeepsSync(s: Slots, calls: seq<Notification>, holder: Holder)
    requires OwnerInSync(s, calls)
    ensures OwnerInSync(s + [Some(holder)], calls + [AddHolder(holder)])
  {
    OccupantsAppend(s, Some(holder));
    CallsAppend(calls, AddHolder(holder));
    SyncStep(Occupants(s), Removed(calls), Added(calls),
             Occupants(s + [Some(holder)]), Removed(calls + [AddHolder(holder)]), Added(calls + [AddHolder(holder)]),
             multiset{Some(holder)}, multiset{});
  }

  lemma PlaceKeepsSync(s: Slots, calls: seq<Notification>, padded: Slots, index: nat, holder: Holder)
    requires OwnerInSync(s, calls)
    requires index < |padded| && padded[index] == None && Occupants(padded) == Occupants(s)
    ensures OwnerInSync(padded[index := Some(holder)], calls + [AddHolder(holder)])
  {
    var placed := padded[index := Some(holder)];
    OccupantsUpdate(padded, index, Some(holder));
    CallsAppend(calls, AddHolder(holder));
    SyncStep(Occupants(s), Removed(calls), Added(calls),
             Occupants(placed), Removed(calls + [AddHolder(holder)]), Added(calls + [AddHolder(holder)]),
             multiset{Some(holder)}, multiset{});
  }

  /** Writing into the allocated slots gives `Placed`, and keeps the last slot occupied. */
  lemma PlacedByAllocation(s: Slots, padded: Slots, index: nat, holder: Holder)
    requires NoTrailingEmpty(s)
    requires !(index < |s| && s[index].Some?)
    requires |padded| == if index < |s| then |s| else index + 1
    requires forall k :: 0 <= k < |padded| ==> padded[k] == if k < |s| then s[k] else None
    ensures padded[index := Some(holder)] == Placed(s, index, holder)
    ensures NoTrailingEmpty(Placed(s, index, holder))
  {
    var placed := Placed(s, index, holder);
    if index < |s| {
      assert placed[|placed| - 1] == s[|s| - 1];
    }
  }

  lemma RemoveKeepsSync(s: Slots, calls: seq<Notification>, index: nat)
    requires OwnerInSync(s, calls)
    requires index < |s|
    ensures OwnerInSync(Trimmed(Delete(s, index)),
                        calls + (if s[index].Some? then [RemoveHolder(s[index].value)] else []))
  {
    var rest := Trimmed(Delete(s, index));
    var calls' := calls + (if s[index].Some? then [RemoveHolder(s[index].value)] else []);
    OccupantsDelete(s, index);
    TrimmedKeepsOccupants(Delete(s, index));
    if s[index].Some? {
      CallsAppend(calls, RemoveHolder(s[index].value));
    } else {
      assert calls' == calls;
    }
    SyncStep(Occupants(s), Removed(calls), Added(calls),
             Occupants(rest), Removed(calls'), Added(calls'),
             multiset{}, SlotOccupant(s[index]));
  }

  /** `list.index(v)` as a scan from the front. */
  method FindFirst(s: Slots, v: Option<Holder>) returns (r: Option<nat>)
    ensures r == IndexOf(s, v)
  {
    var i := 0;
    while i < |s| && s[i] != v
      invariant 0 <= i <= |s|
      invariant v !in s[..i]
    {
      i := i + 1;
    }
    if i == |s| {
      assert s[..i] == s;
      return None;
    }
    IndexOfFirst(s, v, i);
    return Some(i);
  }

  /** Drops trailing empty slots one at a time, as the container's cleanup does. */
  method TrimTrailing(s: Slots) returns (r: Slots)
    ensures r == Trimmed(s)
  {
    r := s;
    while |r| > 0 && r[|r| - 1].None?
      invariant Trimmed(r) == Trimmed(s)
    {
      r := r[..|r| - 1];
    }
  }

  /** Extends `s` with empty slots until slot `index` exists. */
  method Allocate(s: Slots, index: nat) returns (r: Slots)
    ensures |r| == if index < |s| then |s| else index + 1
    ensures forall k :: 0 <= k < |r| ==> r[k] == if k < |s| then s[k] else None
    ensures Occupants(r) == Occupants(s)
  {
    r := s;
    while |r| <= index
      invariant |s| <= |r| <= if index < |s| then |s| else index + 1
      invariant forall k :: 0 <= k < |r| ==> r[k] == if k < |s| then s[k] else None
      invariant Occupants(r) == Occupants(s)
      decreases index + 1 - |r|
    {
      OccupantsAppend(r, None);
      r := r + [None];
    }
  }

  class HolderList {
    /** The slots in order; `None` marks an empty placeholder. */
    var slots: Slots
    /** The calls made on the owning fit, oldest first. */
    var calls: seq<Notification>

    /**
     * No trailing empty slot, and the owner knows exactly the holders in the
     * container: those added minus those removed.
     */
    ghost predicate Valid()
      reads this
    {
      NoTrailingEmpty(slots) && OwnerInSync(slots, calls)
    }

    constructor ()
      ensures Valid() && slots == [] && calls == []
    {
      slots := [];
      calls := [];
    }

    /** `len(container)`. */
    function Length(): (n: nat)
      reads this
      ensures n == |slots|
    {
      |slots|
    }

    /** `container[index]`: the slot's content, or `None` when `index` is out of range. */
    function At(index: nat): (r: Option<Option<Holder>>)
      reads this
      ensures r.Some? <==> index < |slots|
      ensures r.Some? ==> r.value == slots[index]
    {
      if index < |slots| then Some(slots[index]) else None
    }

    /** Puts `holder` into a new slot at the end and tells the owner. */
    method Append(holder: Holder)
      requires Valid()
      modifies this
      ensures Valid()
      ensures slots == old(slots) + [Some(holder)]
      ensures calls == old(calls) + [AddHolder(holder)]
    {
      AppendKeepsSync(slots, calls, holder);
      slots := slots + [Some(holder)];
      calls := calls + [AddHolder(holder)];
    }

    /**
     * Puts `holder` into slot `index`, first padding the list with empty
     * slots when `index` lies past its end. An occupied slot is refused.
     */
    method Place(index: nat, holder: Holder) returns (r: Outcome)
      requires Valid()
      modifies this
      ensures Valid()
      ensures index < |old(slots)| && old(slots)[index].Some? ==>
                r == Error(SlotTaken) && slots == old(slots) && calls == old(calls)
      ensures !(index < |old(slots)| && old(slots)[index].Some?) ==>
                r == Ok && slots == Placed(old(slots), index, holder) && calls == old(calls) + [AddHolder(holder)]
    {
      if index < |slots| && slots[index].Some? {
        return Error(SlotTaken);
      }
      var padded := Allocate(slots, index);
      PlaceKeepsSync(slots, calls, padded, index, holder);
      PlacedByAllocation(slots, padded, index, holder);
      slots := padded[index := Some(holder)];
      calls := calls + [AddHolder(holder)];
      return Ok;
    }

    /**
     * `remove(value)`: takes away the first slot equal to the holder or
     * `None` it is given, or the slot at the index it is given; later slots
     * shift left and trailing empty slots are trimmed. The owner is told
     * once when the slot held a holder, and not at all for an empty slot.
     * A missing value raises ValueError, an index past the end IndexError;
     * on either error nothing changes.
     */
    method Remove(target: RemoveTarget) returns (r: Outcome)
      requires Valid()
      modifies this
      ensures Valid()
      ensures Locate(old(slots), target).None? ==>
                && r == Error(if target.Value? then ValueError else IndexError)
                && slots == old(slots) && calls == old(calls)
      ensures Locate(old(slots), target).Some? ==>
                var k := Locate(old(slots), target).value;
                && r == Ok
                && slots == Trimmed(Delete(old(slots), k))
                && calls == old(calls) + (if old(slots)[k].Some? then [RemoveHolder(old(slots)[k].value)] else [])
    {
      var found: Option<nat>;
      match target {
        case Value(v) =>
          found := FindFirst(slots, v);
        case Index(i) =>
          found := if i < |slots| then Some(i) else None;
      }
      if found.None? {
        return Error(if target.Value? then ValueError else IndexError);
      }
      var index := found.value;
      var slot := slots[index];
      RemoveKeepsSync(slots, calls, index);
      var rest := TrimTrailing(slots[..index] + slots[index + 1..]);
      assert rest == Trimmed(Delete(slots, index));
      if slot.Some? {
        calls := calls + [RemoveHolder(slot.value)];
      } else {
        assert calls + [] == calls;
      }
      slots := rest;
      return Ok;
    }
  }

  /**
   * `testHolderFailure`: removing a holder that is not there raises
   * ValueError and tells the fit nothing; after one append and one removal
   * the fit has seen exactly two calls, and the container is empty.
   */
  method ReplayHolderFailure(h1: Holder, h2: Holder)
    requires h1 != h2
  {
    var c := new HolderList();
    c.Append(h1);
    assert c.slots == [Some(h1)];
    var r := c.Remove(Value(Some(h2)));
    assert r == Error(ValueError) && |c.calls| == 1;
    r := c.Remove(Value(Some(h1)));
    assert r == Ok;
    assert c.calls == [AddHolder(h1), RemoveHolder(h1)];
    r := c.Remove(Value(Some(h1)));
    assert r == Error(ValueError);
    assert c.Length() == 0;
  }

  /**
   * `testIndexNone`: `place(1, h)` leaves an empty slot 0; removing index 0
   * deletes that empty slot without telling the fit, and `h` moves to slot 0.
   */
  method ReplayIndexNone(h: Holder)
  {
    var c := new HolderList();
    var p := c.Place(1, h);
    assert Placed([], 1, h) == [None, Some(h)];
    assert Delete([None, Some(h)], 0) == [Some(h)];
    var r := c.Remove(Index(0));
    assert r == Ok && c.slots == [Some(h)] && |c.calls| == 1;
    r := c.Remove(Value(Some(h)));
    assert r == Ok && c.Length() == 0;
  }

  /** `testIndexOutside`: an index past the end raises IndexError and changes nothing. */
  method ReplayIndexOutside(h: Holder)
  {
    var c := new HolderList();
    c.Append(h);
    var r := c.Remove(Index(5));
    assert r == Error(IndexError) && c.slots == [Some(h)] && |c.calls| == 1;
    r := c.Remove(Value(Some(h)));
    assert r == Ok && c.Length() == 0;
  }
}
