/**
 * The drone-group restriction register: if the ship's item restricts drone
 * groups, drones of any other group may not be fitted. Every violation is
 * reported at once, in one aggregated validation failure.
 */
module RestrictionTracker {
  import opened Wrappers
  import opened Holders

  /** The ship attributes whose original values name the allowed drone groups. */
  const RestrictionAttrs: seq<AttributeId> := [AllowedDroneGroup1, AllowedDroneGroup2]

  /** The kinds of restriction a register can enforce; the other registers of the tracker, not modelled here, add their own. */
  datatype Restriction = DroneGroup

  /** Why one drone is illegal: its own group and the groups the ship allows. */
  datatype DroneGroupErrorData = DroneGroupErrorData(holderGroup: GroupId, allowedGroups: set<real>)

  /** Outcome of `validate`: nothing raised, or one error carrying every tainted holder. */
  datatype Validation = Passed | Failed(taintedHolders: map<Holder, DroneGroupErrorData>)

  /** The restriction-attribute values present among an item's attributes. */
  ghost function AllowedGroups(item: Item): set<real> {
    set a | a in RestrictionAttrs && a in item.attributes :: item.attributes[a]
  }

  /** The holders whose group is not among `allowed`. */
  ghost function Tainted(holders: set<Holder>, allowed: set<real>): set<Holder> {
    set h | h in holders && h.item.groupId as real !in allowed
  }

  /** The allowed set, spelled out attribute by attribute: absent attributes add nothing. */
  lemma AllowedGroupsByAttribute(item: Item)
    ensures AllowedGroups(item) ==
              (if AllowedDroneGroup1 in item.attributes then {item.attributes[AllowedDroneGroup1]} else {}) +
              (if AllowedDroneGroup2 in item.attributes then {item.attributes[AllowedDroneGroup2]} else {})
    ensures AllowedGroups(item) == {} <==>
              AllowedDroneGroup1 !in item.attributes && AllowedDroneGroup2 !in item.attributes
  {
    var a1, a2 := AllowedDroneGroup1, AllowedDroneGroup2;
    var rhs := (if a1 in item.attributes then {item.attributes[a1]} else {}) +
               (if a2 in item.attributes then {item.attributes[a2]} else {});
    forall v | v in AllowedGroups(item) ensures v in rhs {
      var a :| a in RestrictionAttrs && a in item.attributes && item.attributes[a] == v;
      assert a == a1 || a == a2;
    }
    forall v | v in rhs ensures v in AllowedGroups(item) {
      if a1 in item.attributes && v == item.attributes[a1] {
        assert a1 in RestrictionAttrs;
      } else {
        assert a2 in RestrictionAttrs;
      }
    }
  }

  class DroneGroupRegister {
    /** The holders that can be subject to the restriction. */
    var restrictedHolders: set<Holder>

    /** Only drones are ever tracked. */
    ghost predicate Valid()
      reads this
    {
      forall h :: h in restrictedHolders ==> h.kind == Drone
    }

    constructor ()
      ensures Valid() && restrictedHolders == {}
    {
      restrictedHolders := {};
    }

    /** Tracks `holder` when it is a drone; every other holder is ignored. */
    method RegisterHolder(holder: Holder)
      requires Valid()
      modifies this
      ensures Valid()
      ensures restrictedHolders == if holder.kind == Drone then old(restrictedHolders) + {holder}
                                   else old(restrictedHolders)
    {
      if holder.kind == Drone {
        restrictedHolders := restrictedHolders + {holder};
      }
    }

    /** Stops tracking `holder`; a holder that is not tracked is silently ignored. */
    method UnregisterHolder(holder: Holder)
      requires Valid()
      modifies this
      ensures Valid()
      ensures restrictedHolders == old(restrictedHolders) - {holder}
    {
      restrictedHolders := restrictedHolders - {holder};
    }

    /**
     * Checks the tracked drones against the groups the ship's item allows.
     * `ship` is the fit's ship holder at the time of the call. The method
     * changes nothing (it has no modifies clause).
     */
    method Validate(ship: Option<Holder>) returns (r: Validation)
      requires Valid()
      ensures ship.None? ==> r == Passed
      ensures ship.Some? && AllowedGroups(ship.value.item) == {} ==> r == Passed
      ensures r.Failed? <==>
                ship.Some? && AllowedGroups(ship.value.item) != {} &&
                Tainted(restrictedHolders, AllowedGroups(ship.value.item)) != {}
      ensures r.Failed? ==> r.taintedHolders.Keys == Tainted(restrictedHolders, AllowedGroups(ship.value.item))
      ensures r.Failed? ==> forall h :: h in r.taintedHolders ==>
                r.taintedHolders[h] == DroneGroupErrorData(h.item.groupId, AllowedGroups(ship.value.item))
    {
      if ship.None? {
        return Passed;
      }
      var item := ship.value.item;
      // Collect dict.get of every restriction attribute, then drop the None.
      var found: set<Option<real>> := {};
      for i := 0 to |RestrictionAttrs|
        invariant forall o :: o in found <==> exists j :: 0 <= j < i && o == Get(item.attributes, RestrictionAttrs[j])
      {
        found := found + {Get(item.attributes, RestrictionAttrs[i])};
      }
      var allowed := set o | o in found && o.Some? :: o.value;
      assert allowed == AllowedGroups(item) by {
        forall v | v in AllowedGroups(item) ensures v in allowed {
          var a :| a in RestrictionAttrs && a in item.attributes && item.attributes[a] == v;
          var j :| 0 <= j < |RestrictionAttrs| && RestrictionAttrs[j] == a;
          assert Get(item.attributes, RestrictionAttrs[j]) in found;
        }
      }
      if allowed == {} {
        return Passed;
      }
      var tainted: map<Holder, DroneGroupErrorData> := map[];
      var remaining := restrictedHolders;
      while remaining != {}
        invariant remaining <= restrictedHolders
        invariant tainted.Keys == Tainted(restrictedHolders - remaining, allowed)
        invariant forall h :: h in tainted ==> tainted[h] == DroneGroupErrorData(h.item.groupId, allowed)
        decreases remaining
      {
        var holder :| holder in remaining;
        var holderGroup := holder.item.groupId;
        if holderGroup as real !in allowed {
          tainted := tainted[holder := DroneGroupErrorData(holderGroup, allowed)];
        }
        remaining := remaining - {holder};
      }
      if tainted != map[] {
        return Failed(tainted);
      }
      assert tainted.Keys == {};
      return Passed;
    }

    /** The restriction this register enforces. */
    function RestrictionType(): (t: Restriction)
      ensures t == DroneGroup
    {
      DroneGroup
    }
  }

  /**
   * A ship that allows group 100 only and a bay with drones of groups 100,
   * 200 and 100: one failure, naming only the group-200 drone. A module
   * registered beside them is not tracked, and without a ship nothing fails.
   */
  method ReplayAggregation(ship: Holder, d1: Holder, d2: Holder, d3: Holder, m: Holder)
    requires ship.item.attributes == map[AllowedDroneGroup1 := 100.0]
    requires d1.kind == Drone && d1.item.groupId == 100
    requires d2.kind == Drone && d2.item.groupId == 200
    requires d3.kind == Drone && d3.item.groupId == 100
    requires m.kind == Module
  {
    AllowedGroupsByAttribute(ship.item);
    var register := new DroneGroupRegister();
    register.RegisterHolder(d1);
    register.RegisterHolder(d2);
    register.RegisterHolder(d3);
    register.RegisterHolder(m);
    assert register.restrictedHolders == {d1, d2, d3};
    assert Tainted({d1, d2, d3}, {100.0}) == {d2};
    var r := register.Validate(Some(ship));
    assert r.Failed? && r.taintedHolders.Keys == {d2};
    assert r.taintedHolders[d2] == DroneGroupErrorData(200, {100.0});
    assert r == Failed(map[d2 := DroneGroupErrorData(200, {100.0})]);
    r := register.Validate(None);
    assert r == Passed;
  }
}
