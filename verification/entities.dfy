/**
 * The host's entities, as the cheats see them. The game host owns every entity;
 * the cheats read an entity's identifier, category, distance to the local player
 * and its dead/living flags, and write three of its flags.
 */
module Entities {
  import opened Wrappers

  /** The category an entity's class resolves to (players, hostile mobs, passive
      animals, dropped items, armour stands, and everything else). */
  datatype EntityKind = Player | Mob | Animal | Item | ArmorStand | Other

  class Entity {
    const id: int
    const kind: EntityKind
    /** Distance to the local player, as the host's distance query reports it this tick. */
    const distance: real
    const isDead: bool
    /** Whether the entity is a living one (has health and the no-clip flag). */
    const isLiving: bool
    var invisible: bool
    var ignoreItemEntityData: bool
    var noClip: bool

    constructor (id: int, kind: EntityKind, distance: real, isDead: bool, isLiving: bool)
      ensures this.id == id && this.kind == kind && this.distance == distance
      ensures this.isDead == isDead && this.isLiving == isLiving
      ensures !invisible && !ignoreItemEntityData && !noClip
    {
      this.id := id;
      this.kind := kind;
      this.distance := distance;
      this.isDead := isDead;
      this.isLiving := isLiving;
      invisible := false;
      ignoreItemEntityData := false;
      noClip := false;
    }
  }

  /** The entities a loaded world holds; none when no world is loaded. */
  function Loaded(world: Option<seq<Entity>>): set<Entity>
  {
    if world.Some? then set e | e in world.value else {}
  }

  /** The host's lookup of an entity by identifier: the first loaded entity
      carrying that identifier, or nothing. */
  function Lookup(entities: seq<Entity>, id: int): (r: Option<Entity>)
    ensures r.Some? ==> r.value in entities && r.value.id == id
    ensures r.None? ==> forall e :: e in entities ==> e.id != id
  {
    if |entities| == 0 then None
    else if entities[0].id == id then Some(entities[0])
    else Lookup(entities[1..], id)
  }
}
