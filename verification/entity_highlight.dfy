/**
 * The entity highlight renderer. Each frame it selects the entities to outline
 * (living, not dead, not the local player, of an enabled category and within the
 * render distance) and, for each, computes an interpolated render position and a
 * health bar whose colour runs from red to green. The drawing itself is not
 * modelled; the selection and the arithmetic are.
 */
module Highlight {
  import opened Wrappers
  import opened Entities

  const MaxRenderDistance: real := 128.0
  const DefaultLineWidth: real := 2.0
  const MinLineWidth: real := 0.5

  /** The settings the per-entity filter reads. */
  datatype RenderFilter = RenderFilter(players: bool, mobs: bool, animals: bool, distance: real)

  /** Category filter: players, mobs and animals each have a flag; no other category is drawn. */
  function ShouldRenderEntity(f: RenderFilter, kind: EntityKind): (render: bool)
    ensures render <==> (kind == Player && f.players) || (kind == Mob && f.mobs) || (kind == Animal && f.animals)
  {
    if kind == Player then f.players
    else if kind == Mob then f.mobs
    else if kind == Animal then f.animals
    else false
  }

  /** The full per-entity test of a frame. */
  predicate Drawable(f: RenderFilter, self: Entity, e: Entity)
  {
    e != self && !e.isDead && e.isLiving && ShouldRenderEntity(f, e.kind) && e.distance <= f.distance
  }

  /** The entities a frame outlines, in list order. */
  function DrawList(f: RenderFilter, self: Entity, es: seq<Entity>): seq<Entity>
  {
    if |es| == 0 then []
    else DrawList(f, self, es[..|es| - 1]) + (if Drawable(f, self, es[|es| - 1]) then [es[|es| - 1]] else [])
  }

  /** An entity is outlined exactly when it is listed and passes every test. */
  lemma {:induction false} DrawListExactly(f: RenderFilter, self: Entity, es: seq<Entity>)
    ensures |DrawList(f, self, es)| <= |es|
    ensures forall e :: e in DrawList(f, self, es) <==> e in es && Drawable(f, self, e)
  {
    if |es| > 0 {
      var init := es[..|es| - 1];
      DrawListExactly(f, self, init);
      assert es == init + [es[|es| - 1]];
    }
  }

  /** The filtering loop of a frame: returns the entities that get a box. */
  method SelectEntities(f: RenderFilter, self: Entity, es: seq<Entity>) returns (drawn: seq<Entity>)
    ensures drawn == DrawList(f, self, es)
    ensures forall e :: e in drawn <==> e in es && Drawable(f, self, e)
  {
    drawn := [];
    var i := 0;
    while i < |es|
      invariant 0 <= i <= |es|
      invariant drawn == DrawList(f, self, es[..i])
    {
      var entity := es[i];
      assert es[..i + 1][..i] == es[..i];
      if entity != self && !entity.isDead && entity.isLiving {
        if ShouldRenderEntity(f, entity.kind) {
          if entity.distance <= f.distance {
            drawn := drawn + [entity];
          }
        }
      }
      i := i + 1;
    }
    assert es[..i] == es;
    DrawListExactly(f, self, es);
  }

  /** A point or displacement in world space. */
  datatype Vec3 = Vec3(x: real, y: real, z: real)

  /** The value a fraction `t` of the way from `a` to `b`. */
  function Lerp(a: real, b: real, t: real): real
  {
    a + (b - a) * t
  }

  /** Interpolating between shifted end points gives the shifted value. */
  lemma LerpShift(a: real, b: real, t: real, d: real)
    ensures Lerp(a + d, b + d, t) == Lerp(a, b, t) + d
  {
    assert (b + d) - (a + d) == b - a;
  }

  /** Partial-tick interpolation: the last-tick position moved towards the
      current one by the fraction `t`, relative to the viewer. At t = 0 it is the
      last-tick position and at t = 1 the current one. */
  function RenderPosition(last: Vec3, current: Vec3, t: real, viewer: Vec3): (p: Vec3)
    ensures t == 0.0 ==> p == Vec3(last.x - viewer.x, last.y - viewer.y, last.z - viewer.z)
    ensures t == 1.0 ==> p == Vec3(current.x - viewer.x, current.y - viewer.y, current.z - viewer.z)
  {
    Vec3(Lerp(last.x, current.x, t) - viewer.x,
         Lerp(last.y, current.y, t) - viewer.y,
         Lerp(last.z, current.z, t) - viewer.z)
  }

  /** The render position depends only on positions relative to the viewer:
      shifting the entity and the viewer by the same amount leaves it unchanged. */
  lemma RenderPositionTranslationInvariant(last: Vec3, current: Vec3, t: real, viewer: Vec3, d: Vec3)
    ensures RenderPosition(Vec3(last.x + d.x, last.y + d.y, last.z + d.z),
                           Vec3(current.x + d.x, current.y + d.y, current.z + d.z), t,
                           Vec3(viewer.x + d.x, viewer.y + d.y, viewer.z + d.z))
         == RenderPosition(last, current, t, viewer)
  {
    LerpShift(last.x, current.x, t, d.x);
    LerpShift(last.y, current.y, t, d.y);
    LerpShift(last.z, current.z, t, d.z);
  }

  function Min(a: real, b: real): real { if a <= b then a else b }

  /** Red and green components of the health bar for the health fraction `f`. For a
      fraction in [0, 1] both lie in [0, 1] and at least one is full: pure red at 0,
      yellow at 0.5, pure green at 1. */
  function HealthColour(f: real): (rg: (real, real))
    ensures 0.0 <= f <= 1.0 ==> 0.0 <= rg.0 <= 1.0 && 0.0 <= rg.1 <= 1.0 && (rg.0 == 1.0 || rg.1 == 1.0)
    ensures f == 0.0 ==> rg == (1.0, 0.0)
    ensures f == 0.5 ==> rg == (1.0, 1.0)
    ensures f == 1.0 ==> rg == (0.0, 1.0)
  {
    (Min(2.0 * (1.0 - f), 1.0), Min(2.0 * f, 1.0))
  }

  /** As health falls the bar gets no greener and no less red. */
  lemma HealthColourMonotone(lower: real, higher: real)
    requires lower <= higher
    ensures HealthColour(higher).0 <= HealthColour(lower).0
    ensures HealthColour(lower).1 <= HealthColour(higher).1
  {
  }

  /** The two boxes of a health bar: both start at `left`; the background is
      `backgroundWidth` wide and the coloured fill `fillWidth` wide. */
  datatype HealthBar = HealthBar(left: real, backgroundWidth: real, fillWidth: real)

  /** Health bar of an entity `entityWidth` wide at health fraction `f`. The
      background spans the entity's width; the fill is that width scaled by the
      fraction, so for a fraction in [0, 1] it never overhangs the background. */
  function HealthBarGeometry(entityWidth: real, f: real): (bar: HealthBar)
    ensures bar.backgroundWidth == entityWidth
    ensures bar.left == -(entityWidth / 2.0) - 0.5
    ensures 0.0 <= entityWidth && 0.0 <= f <= 1.0 ==> 0.0 <= bar.fillWidth <= bar.backgroundWidth
    ensures f == 1.0 ==> bar.fillWidth == bar.backgroundWidth
    ensures f == 0.0 ==> bar.fillWidth == 0.0
  {
    var barWidth := entityWidth / 2.0;
    var bar := HealthBar(-barWidth - 0.5, barWidth * 2.0, barWidth * 2.0 * f);
    FillWithinBackground(barWidth * 2.0, f);
    bar
  }

  lemma FillWithinBackground(w: real, f: real)
    ensures 0.0 <= w && 0.0 <= f <= 1.0 ==> 0.0 <= w * f <= w
  {
    if 0.0 <= w && 0.0 <= f <= 1.0 {
      assert w * f <= w * 1.0;
    }
  }

  /** min(distance, 128): never above the ceiling, and the request itself when it is not above it. */
  function ClampRenderDistance(distance: real): (stored: real)
    ensures stored <= MaxRenderDistance
    ensures stored == distance || stored == MaxRenderDistance
    ensures distance <= MaxRenderDistance ==> stored == distance
  {
    if distance <= MaxRenderDistance then distance else MaxRenderDistance
  }

  /** max(width, 0.5): never below the floor, and the request itself when it is not below it. */
  function ClampLineWidth(width: real): (stored: real)
    ensures stored >= MinLineWidth
    ensures stored == width || stored == MinLineWidth
    ensures width >= MinLineWidth ==> stored == width
  {
    if width >= MinLineWidth then width else MinLineWidth
  }

  /** Every field of the renderer at once. */
  datatype HighlightState = HighlightState(
    enabled: bool, players: bool, mobs: bool, animals: bool, distance: real, lineWidth: real)

  class ESPCheat {
    var enabled: bool
    var renderPlayers: bool
    var renderMobs: bool
    var renderAnimals: bool
    var renderDistance: real
    var lineWidth: real

    /** The render distance never exceeds its ceiling and the line width never drops
        below its floor (the render distance has no lower bound). */
    ghost predicate Valid()
      reads this
    {
      renderDistance <= MaxRenderDistance && lineWidth >= MinLineWidth
    }

    function State(): HighlightState
      reads this
    {
      HighlightState(enabled, renderPlayers, renderMobs, renderAnimals, renderDistance, lineWidth)
    }

    function Filter(): RenderFilter
      reads this
    {
      RenderFilter(renderPlayers, renderMobs, renderAnimals, renderDistance)
    }

    constructor ()
      ensures Valid()
      ensures State() == HighlightState(false, true, true, true, MaxRenderDistance, DefaultLineWidth)
    {
      enabled := false;
      renderPlayers, renderMobs, renderAnimals := true, true, true;
      renderDistance := MaxRenderDistance;
      lineWidth := DefaultLineWidth;
    }

    /** One frame: nothing is outlined when the renderer is off or no world or no
        local player is present; otherwise exactly the drawable loaded entities are. */
    method RenderESP(world: Option<seq<Entity>>, player: Entity?) returns (drawn: seq<Entity>)
      requires Valid()
      ensures !enabled || world.None? || player == null ==> drawn == []
      ensures enabled && world.Some? && player != null ==>
        && drawn == DrawList(Filter(), player, world.value)
        && forall e :: e in drawn <==> e in world.value && Drawable(Filter(), player, e)
    {
      if !enabled || world.None? || player == null {
        return [];
      }
      drawn := SelectEntities(Filter(), player, world.value);
    }

    method SetEnabled(enabled: bool)
      requires Valid()
      modifies this`enabled
      ensures Valid()
      ensures State() == old(State()).(enabled := enabled)
    {
      this.enabled := enabled;
    }

    /** Negates the enabled flag and nothing else, so two toggles restore the state. */
    method Toggle()
      requires Valid()
      modifies this`enabled
      ensures Valid()
      ensures State() == old(State()).(enabled := !old(enabled))
    {
      enabled := !enabled;
    }

    method SetRenderPlayers(render: bool)
      requires Valid()
      modifies this`renderPlayers
      ensures Valid()
      ensures State() == old(State()).(players := render)
    {
      renderPlayers := render;
    }

    method SetRenderMobs(render: bool)
      requires Valid()
      modifies this`renderMobs
      ensures Valid()
      ensures State() == old(State()).(mobs := render)
    {
      renderMobs := render;
    }

    method SetRenderAnimals(render: bool)
      requires Valid()
      modifies this`renderAnimals
      ensures Valid()
      ensures State() == old(State()).(animals := render)
    {
      renderAnimals := render;
    }

    method SetRenderDistance(distance: real)
      requires Valid()
      modifies this`renderDistance
      ensures Valid()
      ensures State() == old(State()).(distance := ClampRenderDistance(distance))
    {
      renderDistance := ClampRenderDistance(distance);
    }

    method SetLineWidth(width: real)
      requires Valid()
      modifies this`lineWidth
      ensures Valid()
      ensures State() == old(State()).(lineWidth := ClampLineWidth(width))
    {
      lineWidth := ClampLineWidth(width);
    }
  }

  /** Toggling twice leaves every setting as it was. */
  method ToggleTwice(esp: ESPCheat)
    requires esp.Valid()
    modifies esp
    ensures esp.Valid() && esp.State() == old(esp.State())
  {
    esp.Toggle();
    esp.Toggle();
  }
}
