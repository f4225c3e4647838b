/**
 * The entity culling controller. Once per tick it walks the loaded entities,
 * decides for each (other than the local player) whether to hide it, records
 * the hidden identifiers and two counters, and flags hidden entities invisible.
 * Turning global culling off walks the recorded identifiers and un-hides every
 * entity that can still be found.
 */
module Culling {
  import opened Wrappers
  import opened Entities

  const InitialCullingDistance: real := 64.0
  const MinCullingDistance: real := 10.0

  /** The six settings the decision reads. */
  datatype CullSettings = CullSettings(
    global: bool, distance: real,
    players: bool, mobs: bool, animals: bool, items: bool, armorStands: bool)

  /** Which per-category flag governs an entity of this kind (none for other kinds). */
  function CategoryFlag(s: CullSettings, kind: EntityKind): bool
  {
    match kind
    case Player => s.players
    case Mob => s.mobs
    case Animal => s.animals
    case Item => s.items
    case ArmorStand => s.armorStands
    case Other => false
  }

  /** The decision rule: global flag first, then a strict distance threshold,
      then the entity's category flag. */
  function ShouldCullEntity(s: CullSettings, kind: EntityKind, distance: real): (cull: bool)
    ensures !s.global ==> !cull
    ensures s.global && distance > s.distance ==> cull
    ensures s.global && distance <= s.distance ==> cull == CategoryFlag(s, kind)
  {
    if !s.global then false
    else if distance > s.distance then true
    else if kind == Player then s.players
    else if kind == Mob then s.mobs
    else if kind == Animal then s.animals
    else if kind == Item then s.items
    else if kind == ArmorStand then s.armorStands
    else false
  }

  /** Being culled is monotone in distance: moving further away never un-culls. */
  lemma CullingMonotoneInDistance(s: CullSettings, kind: EntityKind, near: real, far: real)
    requires near <= far && ShouldCullEntity(s, kind, near)
    ensures ShouldCullEntity(s, kind, far)
  {
  }

  /** An entity the tick culls: any listed entity except the local player that the rule selects. */
  predicate Culls(s: CullSettings, self: Entity, e: Entity)
  {
    e != self && ShouldCullEntity(s, e.kind, e.distance)
  }

  /** Identifiers of the entities a tick over `es` culls. */
  function CulledIds(s: CullSettings, self: Entity, es: seq<Entity>): set<int>
  {
    if |es| == 0 then {}
    else CulledIds(s, self, es[..|es| - 1]) + (if Culls(s, self, es[|es| - 1]) then {es[|es| - 1].id} else {})
  }

  /** Number of entities a tick over `es` culls (an entity listed twice counts twice). */
  function CulledCount(s: CullSettings, self: Entity, es: seq<Entity>): nat
  {
    if |es| == 0 then 0
    else CulledCount(s, self, es[..|es| - 1]) + (if Culls(s, self, es[|es| - 1]) then 1 else 0)
  }

  /** The recorded set holds exactly the identifiers of culled entities. */
  lemma {:induction false} CulledIdsExactly(s: CullSettings, self: Entity, es: seq<Entity>, id: int)
    ensures id in CulledIds(s, self, es) <==> exists e :: e in es && Culls(s, self, e) && e.id == id
  {
    if |es| > 0 {
      var init := es[..|es| - 1];
      CulledIdsExactly(s, self, init, id);
      assert es == init + [es[|es| - 1]];
      if id in CulledIds(s, self, es) {
        if id !in CulledIds(s, self, init) {
          assert Culls(s, self, es[|es| - 1]) && es[|es| - 1].id == id;
        }
      } else {
        forall e | e in es && Culls(s, self, e) ensures e.id != id {
          if e in init {
          } else {
            assert e == es[|es| - 1];
          }
        }
      }
    }
  }

  /** Counters: at most one distinct identifier per culled entity, and at most one
      culled entity per processed entity. */
  lemma {:induction false} CulledBounds(s: CullSettings, self: Entity, es: seq<Entity>)
    ensures |CulledIds(s, self, es)| <= CulledCount(s, self, es) <= |es|
  {
    if |es| > 0 {
      CulledBounds(s, self, es[..|es| - 1]);
    }
  }

  /** The local player is never culled, however it is categorised or far away. */
  lemma {:induction false} SelfNeverCulled(s: CullSettings, self: Entity, es: seq<Entity>)
    requires forall e :: e in es && e != self ==> e.id != self.id
    ensures self.id !in CulledIds(s, self, es)
  {
    CulledIdsExactly(s, self, es, self.id);
  }

  class ECTCheat {
    var cullPlayers: bool
    var cullMobs: bool
    var cullAnimals: bool
    var cullItems: bool
    var cullArmorStands: bool
    var globalCullingEnabled: bool
    var cullingDistance: real
    /** Identifiers culled by the last tick. */
    var culledEntities: set<int>
    var totalEntitiesProcessed: nat
    var totalEntitiesCulled: nat

    /** The threshold never drops below its floor, and a tick never culls more
        entities than it processed. */
    ghost predicate Valid()
      reads this
    {
      cullingDistance >= MinCullingDistance && totalEntitiesCulled <= totalEntitiesProcessed
    }

    /** The settings the decision rule reads. */
    function Settings(): CullSettings
      reads this
    {
      CullSettings(globalCullingEnabled, cullingDistance, cullPlayers, cullMobs, cullAnimals, cullItems, cullArmorStands)
    }

    constructor ()
      ensures Valid()
      ensures Settings() == CullSettings(false, InitialCullingDistance, false, false, false, false, false)
      ensures culledEntities == {} && totalEntitiesProcessed == 0 && totalEntitiesCulled == 0
    {
      cullPlayers, cullMobs, cullAnimals, cullItems, cullArmorStands := false, false, false, false, false;
      globalCullingEnabled := false;
      cullingDistance := InitialCullingDistance;
      culledEntities := {};
      totalEntitiesProcessed, totalEntitiesCulled := 0, 0;
    }

    /** One tick. With no world or no local player nothing changes. Otherwise the
        set and counters are rebuilt from scratch: every listed entity (the local
        player included) is processed, exactly the entities the rule selects are
        recorded, counted and hidden, and every other entity is left untouched. */
    method Update(world: Option<seq<Entity>>, player: Entity?)
      requires Valid()
      modifies this, Loaded(world)
      ensures Valid()
      ensures world.None? || player == null ==> unchanged(this) && unchanged(Loaded(world))
      ensures Settings() == old(Settings())
      ensures world.Some? && player != null ==>
        && totalEntitiesProcessed == |world.value|
        && culledEntities == CulledIds(Settings(), player, world.value)
        && totalEntitiesCulled == CulledCount(Settings(), player, world.value)
        && forall e :: e in world.value ==>
             if Culls(Settings(), player, e)
             then e.invisible && e.ignoreItemEntityData && e.noClip == (if e.isLiving then false else old(e.noClip))
             else unchanged(e)
    {
      if world.None? || player == null {
        return;
      }
      var es := world.value;
      var s := Settings();
      culledEntities := {};
      totalEntitiesProcessed := 0;
      totalEntitiesCulled := 0;
      var i := 0;
      while i < |es|
        invariant 0 <= i <= |es|
        invariant Settings() == s && cullingDistance >= MinCullingDistance
        invariant totalEntitiesProcessed == i && totalEntitiesCulled <= totalEntitiesProcessed
        invariant culledEntities == CulledIds(s, player, es[..i])
        invariant totalEntitiesCulled == CulledCount(s, player, es[..i])
        invariant forall e :: e in es ==>
          if e in es[..i] && Culls(s, player, e)
          then e.invisible && e.ignoreItemEntityData && e.noClip == (if e.isLiving then false else old(e.noClip))
          else unchanged(e)
      {
        var entity := es[i];
        assert es[..i + 1] == es[..i] + [entity];
        assert es[..i + 1][..i] == es[..i];
        totalEntitiesProcessed := totalEntitiesProcessed + 1;
        if entity != player {
          if ShouldCullEntity(s, entity.kind, entity.distance) {
            culledEntities := culledEntities + {entity.id};
            totalEntitiesCulled := totalEntitiesCulled + 1;
            ApplyEntityCulling(entity);
          }
        }
        i := i + 1;
      }
      assert es[..i] == es;
    }

    /** Hides one entity: invisible, item-render metadata ignored, and for a living
        entity collision explicitly kept on (no-clip off). */
    static method ApplyEntityCulling(entity: Entity)
      modifies entity
      ensures entity.invisible && entity.ignoreItemEntityData
      ensures entity.noClip == (if entity.isLiving then false else old(entity.noClip))
    {
      entity.invisible := true;
      entity.ignoreItemEntityData := true;
      if entity.isLiving {
        entity.noClip := false;
      }
    }

    /** Un-hides one entity: visible, item-render metadata used again, and for a
        living entity no-clip off. */
    static method RemoveEntityCulling(entity: Entity)
      modifies entity
      ensures !entity.invisible && !entity.ignoreItemEntityData
      ensures entity.noClip == (if entity.isLiving then false else old(entity.noClip))
    {
      entity.invisible := false;
      entity.ignoreItemEntityData := false;
      if entity.isLiving {
        entity.noClip := false;
      }
    }

    /** Flips the global flag. Turning it off un-hides every recorded identifier
        that still resolves to a loaded entity, skips the ones that do not, and
        keeps the recorded set; turning it on touches no entity. With no world
        loaded nothing resolves. */
    method ToggleGlobalCulling(world: Option<seq<Entity>>)
      requires Valid()
      modifies this, Loaded(world)
      ensures Valid()
      ensures Settings() == old(Settings()).(global := !old(globalCullingEnabled))
      ensures culledEntities == old(culledEntities)
      ensures totalEntitiesProcessed == old(totalEntitiesProcessed) && totalEntitiesCulled == old(totalEntitiesCulled)
      ensures !old(globalCullingEnabled) ==> unchanged(Loaded(world))
      ensures old(globalCullingEnabled) ==> forall e :: e in Loaded(world) ==>
        if e.id in culledEntities && Lookup(world.value, e.id) == Some(e)
        then !e.invisible && !e.ignoreItemEntityData && e.noClip == (if e.isLiving then false else old(e.noClip))
        else unchanged(e)
    {
      globalCullingEnabled := !globalCullingEnabled;
      if !globalCullingEnabled && world.Some? {
        var es := world.value;
        var pending: set<int> := culledEntities;
        while pending != {}
          invariant pending <= culledEntities
          invariant Settings() == old(Settings()).(global := !old(globalCullingEnabled))
          invariant culledEntities == old(culledEntities)
          invariant totalEntitiesProcessed == old(totalEntitiesProcessed) && totalEntitiesCulled == old(totalEntitiesCulled)
          invariant forall e :: e in Loaded(world) ==>
            if e.id in culledEntities - pending && Lookup(es, e.id) == Some(e)
            then !e.invisible && !e.ignoreItemEntityData && e.noClip == (if e.isLiving then false else old(e.noClip))
            else unchanged(e)
          decreases pending
        {
          if forall y :: y !in pending {
            assert false;
          }
          var entityId :| entityId in pending;
          var found := Lookup(es, entityId);
          if found.Some? {
            RemoveEntityCulling(found.value);
          }
          pending := pending - {entityId};
        }
      }
    }

    /** The toggle as written: the restore pass looks every recorded id up in
        the world without checking that one is loaded. It ends in a null
        dereference exactly when it switches culling off with no world and at
        least one recorded id, and then only the flag has flipped; otherwise it
        leaves the state `ToggleGlobalCulling` leaves. */
    method ToggleGlobalCullingAsWritten(world: Option<seq<Entity>>) returns (outcome: ToggleOutcome)
      requires Valid()
      modifies this, Loaded(world)
      ensures Valid()
      ensures outcome == NullWorldDereference <==>
        old(globalCullingEnabled) && world.None? && old(culledEntities) != {}
      ensures Settings() == old(Settings()).(global := !old(globalCullingEnabled))
      ensures culledEntities == old(culledEntities)
      ensures totalEntitiesProcessed == old(totalEntitiesProcessed) && totalEntitiesCulled == old(totalEntitiesCulled)
      ensures outcome == NullWorldDereference ==> unchanged(Loaded(world))
      ensures outcome == Toggled && !old(globalCullingEnabled) ==> unchanged(Loaded(world))
      ensures outcome == Toggled && old(globalCullingEnabled) ==> forall e :: e in Loaded(world) ==>
        if e.id in culledEntities && Lookup(world.value, e.id) == Some(e)
        then !e.invisible && !e.ignoreItemEntityData && e.noClip == (if e.isLiving then false else old(e.noClip))
        else unchanged(e)
    {
      outcome := Toggled;
      globalCullingEnabled := !globalCullingEnabled;
      if !globalCullingEnabled {
        var pending: set<int> := culledEntities;
        while pending != {}
          invariant pending <= culledEntities
          invariant world.None? ==> pending == culledEntities
          invariant Settings() == old(Settings()).(global := !old(globalCullingEnabled))
          invariant culledEntities == old(culledEntities)
          invariant totalEntitiesProcessed == old(totalEntitiesProcessed) && totalEntitiesCulled == old(totalEntitiesCulled)
          invariant forall e :: e in Loaded(world) ==>
            if e.id in culledEntities - pending && Lookup(world.value, e.id) == Some(e)
            then !e.invisible && !e.ignoreItemEntityData && e.noClip == (if e.isLiving then false else old(e.noClip))
            else unchanged(e)
          decreases pending
        {
          if forall y :: y !in pending {
            assert false;
          }
          var entityId :| entityId in pending;
          if world.None? {
            outcome := NullWorldDereference;
            return;
          }
          var found := Lookup(world.value, entityId);
          if found.Some? {
            RemoveEntityCulling(found.value);
          }
          pending := pending - {entityId};
        }
      }
    }

    method TogglePlayerCulling()
      requires Valid()
      modifies this`cullPlayers
      ensures Valid()
      ensures Settings() == old(Settings()).(players := !old(cullPlayers))
    {
      cullPlayers := !cullPlayers;
    }

    method ToggleMobCulling()
      requires Valid()
      modifies this`cullMobs
      ensures Valid()
      ensures Settings() == old(Settings()).(mobs := !old(cullMobs))
    {
      cullMobs := !cullMobs;
    }

    method ToggleAnimalCulling()
      requires Valid()
      modifies this`cullAnimals
      ensures Valid()
      ensures Settings() == old(Settings()).(animals := !old(cullAnimals))
    {
      cullAnimals := !cullAnimals;
    }

    method ToggleItemCulling()
      requires Valid()
      modifies this`cullItems
      ensures Valid()
      ensures Settings() == old(Settings()).(items := !old(cullItems))
    {
      cullItems := !cullItems;
    }

    method ToggleArmorStandCulling()
      requires Valid()
      modifies this`cullArmorStands
      ensures Valid()
      ensures Settings() == old(Settings()).(armorStands := !old(cullArmorStands))
    {
      cullArmorStands := !cullArmorStands;
    }

    /** Every category flag and the global flag on; the threshold is kept. */
    method CullAllEntities()
      requires Valid()
      modifies this
      ensures Valid()
      ensures Settings() == CullSettings(true, old(cullingDistance), true, true, true, true, true)
      ensures culledEntities == old(culledEntities)
      ensures totalEntitiesProcessed == old(totalEntitiesProcessed) && totalEntitiesCulled == old(totalEntitiesCulled)
    {
      cullPlayers := true;
      cullMobs := true;
      cullAnimals := true;
      cullItems := true;
      cullArmorStands := true;
      globalCullingEnabled := true;
    }

    /** Every category flag and the global flag off, and, when a world is loaded,
        every loaded entity (the local player included) un-hidden. */
    method RestoreAllEntities(world: Option<seq<Entity>>)
      requires Valid()
      modifies this, Loaded(world)
      ensures Valid()
      ensures Settings() == CullSettings(false, old(cullingDistance), false, false, false, false, false)
      ensures culledEntities == old(culledEntities)
      ensures totalEntitiesProcessed == old(totalEntitiesProcessed) && totalEntitiesCulled == old(totalEntitiesCulled)
      ensures forall e :: e in Loaded(world) ==>
        !e.invisible && !e.ignoreItemEntityData && e.noClip == (if e.isLiving then false else old(e.noClip))
    {
      cullPlayers := false;
      cullMobs := false;
      cullAnimals := false;
      cullItems := false;
      cullArmorStands := false;
      globalCullingEnabled := false;
      if world.Some? {
        var es := world.value;
        var i := 0;
        while i < |es|
          invariant 0 <= i <= |es|
          invariant Settings() == CullSettings(false, old(cullingDistance), false, false, false, false, false)
          invariant culledEntities == old(culledEntities)
          invariant totalEntitiesProcessed == old(totalEntitiesProcessed) && totalEntitiesCulled == old(totalEntitiesCulled)
          invariant forall e :: e in es ==>
            if e in es[..i]
            then !e.invisible && !e.ignoreItemEntityData && e.noClip == (if e.isLiving then false else old(e.noClip))
            else unchanged(e)
        {
          assert es[..i + 1] == es[..i] + [es[i]];
          RemoveEntityCulling(es[i]);
          i := i + 1;
        }
        assert es[..i] == es;
      }
    }

    /** Writes only the global flag; no entity is touched. */
    method SetGlobalCullingEnabled(enabled: bool)
      requires Valid()
      modifies this`globalCullingEnabled
      ensures Valid()
      ensures Settings() == old(Settings()).(global := enabled)
    {
      globalCullingEnabled := enabled;
    }

    method SetCullPlayers(cull: bool)
      requires Valid()
      modifies this`cullPlayers
      ensures Valid()
      ensures Settings() == old(Settings()).(players := cull)
    {
      cullPlayers := cull;
    }

    method SetCullMobs(cull: bool)
      requires Valid()
      modifies this`cullMobs
      ensures Valid()
      ensures Settings() == old(Settings()).(mobs := cull)
    {
      cullMobs := cull;
    }

    method SetCullAnimals(cull: bool)
      requires Valid()
      modifies this`cullAnimals
      ensures Valid()
      ensures Settings() == old(Settings()).(animals := cull)
    {
      cullAnimals := cull;
    }

    method SetCullItems(cull: bool)
      requires Valid()
      modifies this`cullItems
      ensures Valid()
      ensures Settings() == old(Settings()).(items := cull)
    {
      cullItems := cull;
    }

    method SetCullArmorStands(cull: bool)
      requires Valid()
      modifies this`cullArmorStands
      ensures Valid()
      ensures Settings() == old(Settings()).(armorStands := cull)
    {
      cullArmorStands := cull;
    }

    /** Stores the requested threshold, raised to the floor of 10 when below it. */
    method SetCullingDistance(distance: real)
      requires Valid()
      modifies this`cullingDistance
      ensures Valid()
      ensures Settings() == old(Settings()).(distance := ClampCullingDistance(distance))
    {
      cullingDistance := ClampCullingDistance(distance);
    }
  }

  /** max(distance, 10): at least the floor, and the request itself when it is not below it. */
  function ClampCullingDistance(distance: real): (stored: real)
    ensures stored >= MinCullingDistance
    ensures stored == distance || stored == MinCullingDistance
    ensures distance >= MinCullingDistance ==> stored == distance
  {
    if distance >= MinCullingDistance then distance else MinCullingDistance
  }

  /** How switching global culling as written ends: normally, or by
      dereferencing the missing world while restoring a recorded id. */
  datatype ToggleOutcome = Toggled | NullWorldDereference

  /** A tick in a world records a culled id; leaving the world makes later
      ticks return early, so the id stays recorded; switching culling off as
      written then dereferences the missing world, while the corrected toggle
      completes and keeps the id recorded. */
  method ToggleOffWithoutWorldAsWritten() returns (outcome: ToggleOutcome, kept: set<int>)
    ensures outcome == NullWorldDereference
    ensures kept == {7}
  {
    var self := new Entity(0, Player, 0.0, false, true);
    var far := new Entity(7, Animal, 100.0, false, true);
    var cheat := new ECTCheat();
    cheat.SetGlobalCullingEnabled(true);
    cheat.Update(Some([self, far]), self);
    assert [self, far][..1] == [self] && [self][..0] == [];
    assert Culls(cheat.Settings(), self, far);
    cheat.Update(None, self);
    var copy := new ECTCheat();
    copy.SetGlobalCullingEnabled(true);
    copy.Update(Some([self, far]), self);
    assert Culls(copy.Settings(), self, far);
    assert CulledIds(copy.Settings(), self, [self]) == {};
    assert copy.culledEntities == {7};
    copy.Update(None, self);
    copy.ToggleGlobalCulling(None);
    kept := copy.culledEntities;
    outcome := cheat.ToggleGlobalCullingAsWritten(None);
  }

  /** A tick over three entities besides the local player: a hostile mob at 5, a
      passive animal at 80 and another player at 10, with a threshold of 64,
      culling on, animal culling on and player and mob culling off. Exactly the
      animal is culled (it is beyond the threshold); the local player counts as
      processed too. */
  method CullingScenario() returns (culled: set<int>, processed: nat, culledCount: nat)
    ensures culled == {2} && processed == 4 && culledCount == 1
  {
    var self := new Entity(0, Player, 0.0, false, true);
    var hostile := new Entity(1, Mob, 5.0, false, true);
    var passive := new Entity(2, Animal, 80.0, false, true);
    var other := new Entity(3, Player, 10.0, false, true);
    var cheat := new ECTCheat();
    cheat.SetGlobalCullingEnabled(true);
    cheat.SetCullAnimals(true);
    var es := [self, hostile, passive, other];
    cheat.Update(Some(es), self);
    var s := cheat.Settings();
    assert s == CullSettings(true, 64.0, false, false, true, false, false);
    assert !Culls(s, self, self) && !Culls(s, self, hostile) && Culls(s, self, passive) && !Culls(s, self, other);
    assert es[..3] == [self, hostile, passive] && es[..3][..2] == [self, hostile] && es[..3][..2][..1] == [self];
    assert CulledIds(s, self, [self]) == {} && CulledCount(s, self, [self]) == 0;
    assert CulledIds(s, self, [self, hostile]) == {} && CulledCount(s, self, [self, hostile]) == 0;
    assert CulledIds(s, self, [self, hostile, passive]) == {2} && CulledCount(s, self, [self, hostile, passive]) == 1;
    culled, processed, culledCount := cheat.culledEntities, cheat.totalEntitiesProcessed, cheat.totalEntitiesCulled;
  }
}
