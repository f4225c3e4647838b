/**
 * The keybinding registry: a mapping from symbolic action identifiers to
 * keyboard key codes, with a human-readable description per identifier.
 * The registry's process-wide maps are the two fields of one registry object;
 * its constructor seeds them with the defaults.
 */
module Input {

  /** Key codes of the keyboard library (LWJGL 2) for the default bindings.
      Nothing below depends on their values beyond being distinct and not -1. */
  const KeyF: int := 0x21
  const KeyG: int := 0x22
  const KeyH: int := 0x23
  const KeyN: int := 0x31
  const KeyM: int := 0x32

  const DefaultToggleFly: int := KeyF
  const DefaultToggleSpeed: int := KeyG
  const DefaultToggleNoclip: int := KeyN
  const DefaultToggleGodmode: int := KeyH
  const DefaultOpenMenu: int := KeyM

  /** Sentinels returned for an identifier that is not registered. */
  const NoKeyCode: int := -1
  const NoDescription: string := ""

  /** The key codes seeded at start-up and by a reset. */
  function DefaultCodes(): map<string, int>
  {
    map[
      "toggle_fly" := DefaultToggleFly,
      "toggle_speed" := DefaultToggleSpeed,
      "toggle_noclip" := DefaultToggleNoclip,
      "toggle_godmode" := DefaultToggleGodmode,
      "open_menu" := DefaultOpenMenu
    ]
  }

  /** The descriptions seeded at start-up and by a reset. */
  function DefaultDescriptions(): map<string, string>
  {
    map[
      "toggle_fly" := "Toggle Flight Mode",
      "toggle_speed" := "Toggle Speed Boost",
      "toggle_noclip" := "Toggle No-Clip Mode",
      "toggle_godmode" := "Toggle God Mode",
      "open_menu" := "Open Cheat Menu"
    ]
  }

  /** The defaults bind exactly five identifiers and describe the same five. */
  lemma DefaultBindings()
    ensures DefaultCodes().Keys == DefaultDescriptions().Keys
          == {"toggle_fly", "toggle_speed", "toggle_noclip", "toggle_godmode", "open_menu"}
    ensures |DefaultCodes()| == 5
  {
    var ids := {"toggle_fly", "toggle_speed", "toggle_noclip", "toggle_godmode", "open_menu"};
    assert DefaultCodes().Keys == ids;
    assert |ids| == 5;
  }

  /** The five default key codes are distinct real key codes, so no two default
      actions share a key and none reads as unbound. */
  lemma DefaultCodesDistinct()
    ensures forall a, b :: a in DefaultCodes() && b in DefaultCodes() && a != b ==> DefaultCodes()[a] != DefaultCodes()[b]
    ensures forall a :: a in DefaultCodes() ==> DefaultCodes()[a] != NoKeyCode
  {
    var codes := DefaultCodes();
    assert codes.Keys == {"toggle_fly", "toggle_speed", "toggle_noclip", "toggle_godmode", "open_menu"};
  }

  class KeyBindings {
    /** identifier -> key code */
    var codes: map<string, int>
    /** identifier -> description */
    var descriptions: map<string, string>

    /** Both maps always hold the same identifiers. */
    ghost predicate Valid()
      reads this
    {
      codes.Keys == descriptions.Keys
    }

    /** Start-up: the five default bindings are registered. */
    constructor ()
      ensures Valid()
      ensures codes == DefaultCodes() && descriptions == DefaultDescriptions()
    {
      codes := map[];
      descriptions := map[];
      new;
      RegisterKeyBinding("toggle_fly", DefaultToggleFly, "Toggle Flight Mode");
      RegisterKeyBinding("toggle_speed", DefaultToggleSpeed, "Toggle Speed Boost");
      RegisterKeyBinding("toggle_noclip", DefaultToggleNoclip, "Toggle No-Clip Mode");
      RegisterKeyBinding("toggle_godmode", DefaultToggleGodmode, "Toggle God Mode");
      RegisterKeyBinding("open_menu", DefaultOpenMenu, "Open Cheat Menu");
    }

    /** Insert or overwrite: afterwards the identifier answers with the new code and
        description, and every other identifier answers as before. */
    method RegisterKeyBinding(id: string, keyCode: int, description: string)
      requires Valid()
      modifies this
      ensures Valid()
      ensures codes == old(codes)[id := keyCode] && descriptions == old(descriptions)[id := description]
      ensures IsKeyBindingRegistered(id) && GetKeyCode(id) == keyCode && GetDescription(id) == description
    {
      codes := codes[id := keyCode];
      descriptions := descriptions[id := description];
    }

    /** Rebinds a registered identifier (keeping its description) and reports
        whether the identifier was registered; an unknown identifier changes nothing. */
    method UpdateKeyBinding(id: string, keyCode: int) returns (updated: bool)
      requires Valid()
      modifies this
      ensures Valid()
      ensures updated <==> id in old(codes)
      ensures codes == (if updated then old(codes)[id := keyCode] else old(codes))
      ensures descriptions == old(descriptions)
      ensures updated ==> GetKeyCode(id) == keyCode
    {
      if id in codes {
        codes := codes[id := keyCode];
        return true;
      }
      return false;
    }

    /** The bound key code, or -1 when the identifier is not registered. */
    function GetKeyCode(id: string): (code: int)
      reads this
      ensures IsKeyBindingRegistered(id) ==> code == codes[id]
      ensures !IsKeyBindingRegistered(id) ==> code == NoKeyCode
    {
      if id in codes then codes[id] else NoKeyCode
    }

    /** The description, or the empty string when the identifier is not registered. */
    function GetDescription(id: string): (description: string)
      reads this
      ensures id in descriptions ==> description == descriptions[id]
      ensures id !in descriptions ==> description == NoDescription
    {
      if id in descriptions then descriptions[id] else NoDescription
    }

    /** Whether the identifier has a binding. */
    function IsKeyBindingRegistered(id: string): (registered: bool)
      reads this
      ensures registered <==> id in codes
    {
      id in codes
    }

    /** Level-triggered: the bound key is currently held (`held` is the set of key
        codes the keyboard reports down); never for an identifier whose code is -1. */
    function IsKeyPressed(id: string, held: set<int>): (pressed: bool)
      reads this
      ensures GetKeyCode(id) == NoKeyCode ==> !pressed
      ensures GetKeyCode(id) != NoKeyCode ==> (pressed <==> GetKeyCode(id) in held)
    {
      var keyCode := GetKeyCode(id);
      if keyCode != NoKeyCode then keyCode in held else false
    }

    /** Edge-triggered: this tick's keyboard event is a key-down of the bound key;
        never for an identifier whose code is -1. */
    function IsKeyJustPressed(id: string, eventKey: int, eventKeyDown: bool): (pressed: bool)
      reads this
      ensures GetKeyCode(id) == NoKeyCode ==> !pressed
      ensures GetKeyCode(id) != NoKeyCode ==> (pressed <==> eventKey == GetKeyCode(id) && eventKeyDown)
    {
      var keyCode := GetKeyCode(id);
      if keyCode != NoKeyCode then eventKey == keyCode && eventKeyDown else false
    }

    /** Removes a binding and its description and reports whether the identifier
        was registered; afterwards the identifier answers with the sentinels and
        every other identifier answers as before. */
    method RemoveKeyBinding(id: string) returns (removed: bool)
      requires Valid()
      modifies this
      ensures Valid()
      ensures removed <==> id in old(codes)
      ensures codes == old(codes) - {id} && descriptions == old(descriptions) - {id}
      ensures !IsKeyBindingRegistered(id) && GetKeyCode(id) == NoKeyCode && GetDescription(id) == NoDescription
    {
      if id in codes {
        codes := codes - {id};
        descriptions := descriptions - {id};
        return true;
      }
      return false;
    }

    /** Clears both maps and re-seeds the defaults: the result is the start-up
        registry whatever came before, so a reset is idempotent. */
    method ResetToDefaults()
      requires Valid()
      modifies this
      ensures Valid()
      ensures codes == DefaultCodes() && descriptions == DefaultDescriptions()
    {
      codes := map[];
      descriptions := map[];
      RegisterKeyBinding("toggle_fly", DefaultToggleFly, "Toggle Flight Mode");
      RegisterKeyBinding("toggle_speed", DefaultToggleSpeed, "Toggle Speed Boost");
      RegisterKeyBinding("toggle_noclip", DefaultToggleNoclip, "Toggle No-Clip Mode");
      RegisterKeyBinding("toggle_godmode", DefaultToggleGodmode, "Toggle God Mode");
      RegisterKeyBinding("open_menu", DefaultOpenMenu, "Open Cheat Menu");
    }

    /** A copy of the code map: it agrees with GetKeyCode on every registered identifier. */
    function GetAllKeyBindings(): (all: map<string, int>)
      reads this
      ensures all.Keys == codes.Keys
      ensures forall id :: id in all ==> all[id] == GetKeyCode(id)
    {
      codes
    }

    /** A copy of the description map: it agrees with GetDescription on every registered identifier. */
    function GetAllDescriptions(): (all: map<string, string>)
      reads this
      ensures all.Keys == descriptions.Keys
      ensures forall id :: id in all ==> all[id] == GetDescription(id)
    {
      descriptions
    }
  }
}
