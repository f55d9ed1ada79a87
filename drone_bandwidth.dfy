/**
 * The drone-bandwidth stat of the stat tracker: the bandwidth the ship
 * provides (`output`) and the bandwidth the tracked holders use (`used`).
 * The pair is a volatile value: computed on first read, then served from a
 * cache until the tracker's volatile attributes are cleared.
 */
module DroneBandwidthStat {
  import opened Wrappers
  import opened Holders

  /**
   * What the attribute calculator presents at the moment of a read: each
   * holder's activation state and its modified (calculated) attribute values.
   */
  datatype Snapshot = Snapshot(states: map<Holder, State>, attributes: map<Holder, map<AttributeId, real>>)

  /** The stat's value: bandwidth used, and bandwidth provided (none without a ship or attribute). */
  datatype ResourceUse = ResourceUse(used: real, output: Option<real>)

  /** True when the holder is online or in a higher state. */
  predicate IsOnline(holder: Holder, snap: Snapshot) {
    holder in snap.states && snap.states[holder].AtLeast(Online)
  }

  /** The modified value of `attr` on `holder`, if the calculator has one. */
  function ModifiedValue(holder: Holder, attr: AttributeId, snap: Snapshot): Option<real> {
    if holder in snap.attributes then Get(snap.attributes[holder], attr) else None
  }

  /** What one tracked holder adds to `used`: its modified usage when online, nothing otherwise. */
  function Usage(holder: Holder, snap: Snapshot): (u: real)
    ensures !IsOnline(holder, snap) ==> u == 0.0
    ensures IsOnline(holder, snap) && holder in snap.attributes && DroneBandwidthUsed in snap.attributes[holder] ==>
              u == snap.attributes[holder][DroneBandwidthUsed]
    ensures IsOnline(holder, snap) && !(holder in snap.attributes && DroneBandwidthUsed in snap.attributes[holder]) ==>
              u == 0.0
  {
    if IsOnline(holder, snap) then ModifiedValue(holder, DroneBandwidthUsed, snap).GetOr(0.0) else 0.0
  }

  /** The sum of the usages of `holders`, in no particular order (the sum is exact). */
  ghost function TotalUsage(holders: set<Holder>, snap: Snapshot): (total: real)
    ensures (forall h :: h in holders ==> Usage(h, snap) == 0.0) ==> total == 0.0
    decreases holders
  {
    if holders == {} then 0.0
    else
      var h :| h in holders;
      Usage(h, snap) + TotalUsage(holders - {h}, snap)
  }

  /** `output`: the ship's modified bandwidth; `None` without a ship or without the attribute. */
  function Output(ship: Option<Holder>, snap: Snapshot): (r: Option<real>)
    ensures ship.None? ==> r.None?
    ensures ship.Some? ==> r == ModifiedValue(ship.value, DroneBandwidth, snap)
  {
    match ship
    case None => None
    case Some(s) => ModifiedValue(s, DroneBandwidth, snap)
  }

  /** Any holder can be split off the sum first. */
  lemma {:induction false} TotalUsageRemove(holders: set<Holder>, snap: Snapshot, h: Holder)
    requires h in holders
    ensures TotalUsage(holders, snap) == Usage(h, snap) + TotalUsage(holders - {h}, snap)
    decreases holders
  {
    var x :| x in holders && TotalUsage(holders, snap) == Usage(x, snap) + TotalUsage(holders - {x}, snap);
    if x != h {
      TotalUsageRemove(holders - {x}, snap, h);
      TotalUsageRemove(holders - {h}, snap, x);
      assert holders - {x} - {h} == holders - {h} - {x};
    }
  }

  /** Two disjoint groups of holders use what each uses. */
  lemma {:induction false} TotalUsageUnion(a: set<Holder>, b: set<Holder>, snap: Snapshot)
    requires a !! b
    ensures TotalUsage(a + b, snap) == TotalUsage(a, snap) + TotalUsage(b, snap)
    decreases a
  {
    if a != {} {
      var h :| h in a;
      TotalUsageRemove(a + b, snap, h);
      TotalUsageRemove(a, snap, h);
      assert (a + b) - {h} == (a - {h}) + b;
      TotalUsageUnion(a - {h}, b, snap);
    } else {
      assert a + b == b;
    }
  }

  /** An offline holder changes nothing, whatever its usage attribute says. */
  lemma OfflineHolderAddsNothing(holders: set<Holder>, snap: Snapshot, h: Holder)
    requires h !in holders && h in snap.states && snap.states[h] == Offline
    ensures TotalUsage(holders + {h}, snap) == TotalUsage(holders, snap)
  {
    TotalUsageRemove(holders + {h}, snap, h);
    assert holders + {h} - {h} == holders;
  }

  /** Two distinct holders use the sum of their usages; negative values are added as they are. */
  lemma TotalUsageOfTwo(h1: Holder, h2: Holder, snap: Snapshot)
    requires h1 != h2
    ensures TotalUsage({h1, h2}, snap) == Usage(h1, snap) + Usage(h2, snap)
  {
    TotalUsageRemove({h1, h2}, snap, h1);
    assert {h1, h2} - {h1} == {h2};
    TotalUsageRemove({h2}, snap, h2);
  }

  /** A snapshot with one calculated attribute value per holder. */
  function SnapshotOf(entries: map<Holder, (State, AttributeId, real)>): Snapshot {
    Snapshot(map h | h in entries :: entries[h].0,
             map h | h in entries :: map[entries[h].1 := entries[h].2])
  }

  /**
   * `test_output`, `test_output_no_attr`, `test_output_no_ship`: the ship's
   * modified bandwidth (50) is reported, not its item's base value (10); a
   * ship without the attribute, or no ship at all, gives no output.
   */
  lemma OutputScenario(ship: Holder, bare: Holder)
    requires ship.item.attributes == map[DroneBandwidth := 10.0]
    requires bare.item.attributes == map[]
    ensures Output(Some(ship), SnapshotOf(map[ship := (Offline, DroneBandwidth, 50.0)])) == Some(50.0)
    ensures Output(Some(bare), Snapshot(map[bare := Offline], map[bare := map[]])) == None
    ensures Output(None, SnapshotOf(map[ship := (Offline, DroneBandwidth, 50.0)])) == None
  {
  }

  /**
   * `test_use_none`, `test_use_single_no_rounding`, `test_use_multiple`,
   * `test_use_negative`, `test_use_state`, `test_use_other_class_domain`:
   * no user uses 0, a single user's value is kept unrounded, two online
   * users of 50 and 30 use 80, 50 and -30 use 20, and an offline user of 30
   * next to an online 50 leaves 50. The holders' classes play no part.
   */
  lemma UsedScenarios(h1: Holder, h2: Holder)
    requires h1 != h2
    ensures TotalUsage({}, SnapshotOf(map[])) == 0.0
    ensures TotalUsage({h1}, SnapshotOf(map[h1 := (Online, DroneBandwidthUsed, 55.5555555555)])) == 55.5555555555
    ensures TotalUsage({h1, h2}, SnapshotOf(map[h1 := (Online, DroneBandwidthUsed, 50.0),
                                                h2 := (Online, DroneBandwidthUsed, 30.0)])) == 80.0
    ensures TotalUsage({h1, h2}, SnapshotOf(map[h1 := (Online, DroneBandwidthUsed, 50.0),
                                                h2 := (Online, DroneBandwidthUsed, -30.0)])) == 20.0
    ensures TotalUsage({h1, h2}, SnapshotOf(map[h1 := (Online, DroneBandwidthUsed, 50.0),
                                                h2 := (Offline, DroneBandwidthUsed, 30.0)])) == 50.0
  {
    TotalUsageRemove({h1}, SnapshotOf(map[h1 := (Online, DroneBandwidthUsed, 55.5555555555)]), h1);
    TotalUsageOfTwo(h1, h2, SnapshotOf(map[h1 := (Online, DroneBandwidthUsed, 50.0),
                                           h2 := (Online, DroneBandwidthUsed, 30.0)]));
    TotalUsageOfTwo(h1, h2, SnapshotOf(map[h1 := (Online, DroneBandwidthUsed, 50.0),
                                           h2 := (Online, DroneBandwidthUsed, -30.0)]));
    TotalUsageOfTwo(h1, h2, SnapshotOf(map[h1 := (Online, DroneBandwidthUsed, 50.0),
                                           h2 := (Offline, DroneBandwidthUsed, 30.0)]));
  }

  /** Sums the usages of `holders` one holder at a time. */
  method ComputeUsed(holders: set<Holder>, snap: Snapshot) returns (total: real)
    ensures total == TotalUsage(holders, snap)
  {
    total := 0.0;
    var rest := holders;
    while rest != {}
      invariant rest <= holders
      invariant total + TotalUsage(rest, snap) == TotalUsage(holders, snap)
      decreases rest
    {
      var holder :| holder in rest;
      TotalUsageRemove(rest, snap, holder);
      total := total + Usage(holder, snap);
      rest := rest - {holder};
    }
  }

  /** The part of the stat tracker that serves the drone-bandwidth stat. */
  class StatTracker {
    /** The fit's ship holder. */
    var ship: Option<Holder>
    /** The holders registered as potential bandwidth users. */
    var users: set<Holder>
    /** The cached value of `drone_bandwidth`, if it has been read since the last clearing. */
    var droneBandwidthCache: Option<ResourceUse>

    constructor ()
      ensures ship == None && users == {} && droneBandwidthCache == None
    {
      ship := None;
      users := {};
      droneBandwidthCache := None;
    }

    /** No ship and no tracked holder: the stat keeps nothing about the fit. */
    predicate BuffersEmpty()
      reads this
    {
      ship.None? && users == {}
    }

    method SetShip(newShip: Option<Holder>)
      modifies this
      ensures ship == newShip
      ensures users == old(users) && droneBandwidthCache == old(droneBandwidthCache)
    {
      ship := newShip;
    }

    method TrackHolder(holder: Holder)
      modifies this
      ensures users == old(users) + {holder}
      ensures ship == old(ship) && droneBandwidthCache == old(droneBandwidthCache)
    {
      users := users + {holder};
    }

    method UntrackHolder(holder: Holder)
      modifies this
      ensures users == old(users) - {holder}
      ensures ship == old(ship) && droneBandwidthCache == old(droneBandwidthCache)
    {
      users := users - {holder};
    }

    /** `_clear_volatile_attrs`: the next read recomputes. */
    method ClearVolatileAttrs()
      modifies this
      ensures droneBandwidthCache == None
      ensures ship == old(ship) && users == old(users)
    {
      droneBandwidthCache := None;
    }

    /**
     * `drone_bandwidth`: the cached value when there is one; otherwise the
     * value computed from `snap`, which is then cached.
     */
    method DroneBandwidthUse(snap: Snapshot) returns (r: ResourceUse)
      modifies this
      ensures old(droneBandwidthCache).Some? ==> r == old(droneBandwidthCache).value
      ensures old(droneBandwidthCache).None? ==>
                r == ResourceUse(TotalUsage(users, snap), Output(ship, snap))
      ensures droneBandwidthCache == Some(r)
      ensures ship == old(ship) && users == old(users)
    {
      if droneBandwidthCache.Some? {
        return droneBandwidthCache.value;
      }
      var used := ComputeUsed(users, snap);
      r := ResourceUse(used, Output(ship, snap));
      droneBandwidthCache := Some(r);
    }
  }

  /** The fit of `test_cache` and `test_volatility` before and after its attributes change. */
  function VolatilitySnapshot(ship: Holder, h1: Holder, h2: Holder, changed: bool): Snapshot {
    SnapshotOf(map[ship := (Offline, DroneBandwidth, if changed then 60.0 else 50.0),
                   h1 := (Online, DroneBandwidthUsed, if changed then 10.0 else 50.0),
                   h2 := (Online, DroneBandwidthUsed, 30.0)])
  }

  lemma VolatilityValues(ship: Holder, h1: Holder, h2: Holder)
    requires ship != h1 && ship != h2 && h1 != h2
    ensures TotalUsage({h1, h2}, VolatilitySnapshot(ship, h1, h2, false)) == 80.0
    ensures Output(Some(ship), VolatilitySnapshot(ship, h1, h2, false)) == Some(50.0)
    ensures TotalUsage({h1, h2}, VolatilitySnapshot(ship, h1, h2, true)) == 40.0
    ensures Output(Some(ship), VolatilitySnapshot(ship, h1, h2, true)) == Some(60.0)
  {
    TotalUsageOfTwo(h1, h2, VolatilitySnapshot(ship, h1, h2, false));
    TotalUsageOfTwo(h1, h2, VolatilitySnapshot(ship, h1, h2, true));
  }

  /**
   * `test_cache` and `test_volatility`: once read, the stat keeps its value
   * when attributes change (80 and 50 stay), and shows the new values (40
   * and 60) only after the volatile attributes are cleared. Untracking all
   * holders and unsetting the ship leaves the buffers empty.
   */
  method ReplayVolatility(ship: Holder, h1: Holder, h2: Holder)
    requires ship != h1 && ship != h2 && h1 != h2
  {
    VolatilityValues(ship, h1, h2);
    var st := new StatTracker();
    st.SetShip(Some(ship));
    st.TrackHolder(h1);
    st.TrackHolder(h2);
    assert st.users == {h1, h2};
    var r := st.DroneBandwidthUse(VolatilitySnapshot(ship, h1, h2, false));
    assert r == ResourceUse(80.0, Some(50.0));
    r := st.DroneBandwidthUse(VolatilitySnapshot(ship, h1, h2, true));
    assert r == ResourceUse(80.0, Some(50.0));
    st.ClearVolatileAttrs();
    r := st.DroneBandwidthUse(VolatilitySnapshot(ship, h1, h2, true));
    assert r == ResourceUse(40.0, Some(60.0));
    st.SetShip(None);
    st.UntrackHolder(h1);
    st.UntrackHolder(h2);
    assert st.BuffersEmpty();
  }
}
