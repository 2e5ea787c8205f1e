/**
 * The module-level `_INSTANCE` slot: one shared `TagTypesManager`, created and loaded
 * on first use, dropped by `reset_tag_types_manager`, and the synchronous lookups that
 * answer defaults while no manager exists. The slot is a field of a `Registry` object;
 * the storage it hands to each new manager outlives every reset.
 */
module ManagerRegistry {
  import opened Wrappers
  import opened Json
  import opened TagTypeRecord
  import opened Remote
  import opened Manager

  class Registry {
    var instance: TagTypesManager?
    const disk: Disk

    /** The shared manager, when there is one, works on this registry's storage. */
    ghost predicate Valid()
      reads this, instance
    {
      instance != null ==> instance.disk == disk && instance.Valid()
    }

    /** No manager yet. */
    constructor(disk: Disk)
      ensures this.disk == disk && instance == null && Valid()
    {
      this.disk := disk;
      instance := null;
    }

    /**
     * `get_tag_types_manager`: the existing manager, untouched; or a new one, stored in
     * the slot before it loads its types, so that the slot holds it even when loading
     * raises. Unless loading raised, the new manager has types and a timestamp; either
     * way its state is what `ensure_types_loaded` leaves from an empty table.
     */
    method GetTagTypesManager(listing: Option<seq<ListingItem>>, now: nat)
      returns (manager: TagTypesManager, raised: bool)
      requires Valid()
      modifies this, disk
      ensures Valid() && instance == manager && manager.disk == disk
      ensures old(instance) != null ==> manager == old(instance) && !raised && unchanged(manager) && unchanged(disk)
      ensures old(instance) == null ==> fresh(manager)
      ensures old(instance) == null && !raised ==> manager.tagTypes != map[] && manager.lastUpdate.Some?
      ensures old(instance) == null ==>
        Ensured(Snapshot(map[], None, old(disk.current), old(disk.legacy), old(disk.legacyFile)), manager.Snap(), listing, now, raised)
    {
      if instance != null {
        return instance, false;
      }
      manager := new TagTypesManager(disk);
      instance := manager;
      var fetches;
      raised, fetches := manager.EnsureTypesLoaded(listing, now);
    }

    /** `reset_tag_types_manager`: empties the slot; the storage is left as it is. */
    method Reset()
      modifies this
      ensures instance == null && Valid()
    {
      instance := null;
    }

    /** `get_hw_dimensions` (module level): 296 x 128 while there is no manager. */
    function HwDimensions(hwType: int): (dims: (Value, Value))
      reads this, instance
      ensures instance == null ==> dims == (JInt(296), JInt(128))
      ensures instance != null ==> dims == instance.GetHwDimensions(hwType)
    {
      if instance == null then (JInt(296), JInt(128)) else instance.GetHwDimensions(hwType)
    }

    /** `get_hw_string` (module level): "Unknown Type <ID>" while there is no manager. */
    function HwString(hwType: int): (name: Value)
      reads this, instance
      ensures instance == null ==> name == JStr(UnknownName(hwType))
      ensures instance != null ==> name == instance.GetHwString(hwType)
    {
      if instance == null then JStr(UnknownName(hwType)) else instance.GetHwString(hwType)
    }

    /** `is_in_hw_map` (module level): no ID is known while there is no manager. */
    function IsInHwMap(hwType: int): (known: bool)
      reads this, instance
      ensures instance == null ==> !known
      ensures instance != null ==> known == instance.IsInHwMap(hwType)
    {
      instance != null && instance.IsInHwMap(hwType)
    }

    /**
     * Without a manager the module-level lookups answer exactly what a manager
     * with no types would: the defaults of the two layers agree.
     */
    lemma NoManagerActsAsEmpty(empty: TagTypesManager, hwType: int)
      requires instance == null && empty.tagTypes == map[]
      ensures HwDimensions(hwType) == empty.GetHwDimensions(hwType)
      ensures HwString(hwType) == empty.GetHwString(hwType)
      ensures IsInHwMap(hwType) == empty.IsInHwMap(hwType)
    {
    }

    /**
     * The module-level lookups never report an unknown ID as known: whenever an ID
     * is not in the map, the dimensions and name are the constructor's defaults.
     */
    lemma UnknownIdDefaults(hwType: int)
      requires !IsInHwMap(hwType)
      ensures HwDimensions(hwType) == (New(hwType, EmptyDict).width, New(hwType, EmptyDict).height)
      ensures HwString(hwType) == New(hwType, EmptyDict).name
    {
      ConstructorDefaults(hwType);
      if instance != null {
        instance.UnknownTypeDefaults(hwType);
      }
    }
  }
}
