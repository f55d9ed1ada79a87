/**
 * Entities shared by the drone-group restriction register, the ordered
 * holder container and the drone-bandwidth stat: the attribute ids they
 * read, holder kinds and activation states, items and holders.
 */
module Holders {

  type AttributeId = int
  type GroupId = int

  /** Ids of the game attributes the modelled components read. */
  const DroneBandwidth: AttributeId := 1271
  const DroneBandwidthUsed: AttributeId := 1272
  const AllowedDroneGroup1: AttributeId := 1782
  const AllowedDroneGroup2: AttributeId := 1783

  /** The holder classes of a fit; registers dispatch on this tag. */
  datatype HolderKind = Ship | Drone | Module | Charge | Implant | Booster | Rig | Subsystem | Skill | Character

  /** Activation states, ordered offline < online < active < overload. */
  datatype State = Offline | Online | Active | Overload {

    function Rank(): nat {
      match this
      case Offline => 0
      case Online => 1
      case Active => 2
      case Overload => 3
    }

    predicate AtLeast(other: State) {
      Rank() >= other.Rank()
    }
  }

  /** Static type data: id, group and the unmodified (base) attribute values. */
  datatype Item = Item(typeId: int, groupId: GroupId, attributes: map<AttributeId, real>)

  /**
   * A holder: an abstract identity, its class, and the item it instantiates.
   * Its activation state and calculated attribute values change over time and
   * are supplied separately by the components that read them.
   */
  datatype Holder = Holder(id: nat, kind: HolderKind, item: Item)
}
