// The global hotkey that shows and hides the main window: loaded from the
// `settings` table at start-up, changed from the settings window, and bound
// or unbound as the game starts and stops.
module Hotkey {
  import opened Text

  /** The hotkey used when `settings` holds none. */
  const DefaultHotkey: string := "ctrl+q"

  /** The `type` column under which the hotkey is stored. */
  const HotkeyType: string := "hotkey"

  /** The notice shown when a combination with the Windows key is entered. */
  const WindowsRefused: string := "不支持绑定windows键"

  /** The hotkey read at start-up: the stored value, or the default when
      the lookup finds no row. */
  function LoadHotkey(settings: map<string, string>): (h: string)
    ensures HotkeyType in settings ==> h == settings[HotkeyType]
    ensures HotkeyType !in settings ==> h == DefaultHotkey
  {
    if HotkeyType in settings then settings[HotkeyType] else DefaultHotkey
  }

  /** The keyboard library's bindings, one entry per registration;
      removing a binding drops one registration of it, and removing one
      that is not bound raises, which the caller ignores. */
  function Unbind(bindings: seq<string>, h: string): (r: seq<string>)
    ensures multiset(r) == multiset(bindings) - multiset{h}
  {
    if bindings == [] then []
    else
      assert bindings == [bindings[0]] + bindings[1..];
      if bindings[0] == h then bindings[1..]
      else [bindings[0]] + Unbind(bindings[1..], h)
  }

  /** `settings` rows by `type`, the text of the hotkey label, the bound
      combinations, the `hotkey` attribute and the notices shown. */
  datatype HotkeyState = HotkeyState(
    settings: map<string, string>,
    caption: string,
    bindings: seq<string>,
    hotkey: string,
    notices: seq<string>)

  /** `set_hotkey`. */
  function Bind(s: HotkeyState, h: string): HotkeyState {
    s.(bindings := s.bindings + [h])
  }

  /** `update_hotkey`: a combination with the Windows key is refused with a
      notice; any other is stored, shown and bound. The `hotkey`
      attribute is not changed and the previous combination stays bound. */
  function Update(s: HotkeyState, h: string): HotkeyState {
    if Contains(h, "windows") then s.(notices := s.notices + [WindowsRefused])
    else Bind(s.(settings := s.settings[HotkeyType := h], caption := h), h)
  }

  /** The part of `process_control` that concerns the hotkey: the `hotkey`
      attribute is bound when the game starts and unbound when it stops. */
  function GameStarted(s: HotkeyState): HotkeyState {
    Bind(s, s.hotkey)
  }

  function GameStopped(s: HotkeyState): HotkeyState {
    s.(bindings := Unbind(s.bindings, s.hotkey))
  }

  /** A refused combination changes nothing but the notices. */
  lemma RefusedChangesNothing(s: HotkeyState, h: string)
    requires Contains(h, "windows")
    ensures Update(s, h).(notices := s.notices) == s
    ensures Update(s, h).notices == s.notices + [WindowsRefused]
  {
  }

  /** Any combination containing "windows" is refused, wherever the word
      appears. */
  lemma WindowsAnywhereRefused(s: HotkeyState, prefix: string, suffix: string)
    ensures Update(s, prefix + "windows" + suffix).settings == s.settings
    ensures Update(s, prefix + "windows" + suffix).bindings == s.bindings
  {
    var h := prefix + "windows" + suffix;
    assert h[|prefix|..|prefix| + |"windows"|] == "windows";
    ContainsAt(h, "windows", |prefix|);
  }

  /** An accepted combination is what the next start-up loads, what the
      label shows, and is bound once more than before. */
  lemma AcceptedIsStored(s: HotkeyState, h: string)
    requires !Contains(h, "windows")
    ensures LoadHotkey(Update(s, h).settings) == h
    ensures Update(s, h).caption == h
    ensures multiset(Update(s, h).bindings) == multiset(s.bindings) + multiset{h}
    ensures Update(s, h).hotkey == s.hotkey
    ensures forall t :: t in Update(s, h).settings && t != HotkeyType ==>
              Update(s, h).settings[t] == s.settings[t]
  {
  }

  /** As written, changing the hotkey leaves the previous one bound until
      the game stops, and stopping the game then unbinds the previous
      combination while the new one stays bound. */
  lemma PreviousBindingKept(s: HotkeyState, h: string)
    requires !Contains(h, "windows") && s.hotkey in s.bindings && h != s.hotkey
    ensures s.hotkey in Update(s, h).bindings
    ensures h in GameStopped(Update(s, h)).bindings
    ensures multiset(GameStopped(Update(s, h)).bindings)[s.hotkey] == multiset(s.bindings)[s.hotkey] - 1
  {
    var u := Update(s, h);
    assert multiset(u.bindings) == multiset(s.bindings) + multiset{h};
    assert s.hotkey in multiset(u.bindings);
    assert h in multiset(GameStopped(u).bindings);
  }

  /** After a start, a stop and no change, the bindings are as before. */
  lemma StartStopRestores(s: HotkeyState)
    ensures multiset(GameStopped(GameStarted(s)).bindings) == multiset(s.bindings)
  {
  }

  // ---------------------------------------------------------------------
  // The settings window's part of the main window object.

  class HotkeySettings {
    var settings: map<string, string>
    var caption: string
    var bindings: seq<string>
    var hotkey: string
    var notices: seq<string>

    function Abs(): HotkeyState
      reads this
    {
      HotkeyState(settings, caption, bindings, hotkey, notices)
    }

    /** Start-up: the hotkey is loaded and shown, nothing is bound yet. */
    constructor (stored: map<string, string>)
      ensures Abs() == HotkeyState(stored, LoadHotkey(stored), [], LoadHotkey(stored), [])
    {
      settings := stored;
      if HotkeyType in stored {
        hotkey := stored[HotkeyType];
      } else {
        hotkey := DefaultHotkey;
      }
      caption := hotkey;
      bindings := [];
      notices := [];
    }

    /** `set_hotkey`. */
    method SetHotkey(h: string)
      modifies this
      ensures Abs() == Bind(old(Abs()), h)
    {
      bindings := bindings + [h];
    }

    /** `remove_hotkey`. */
    method RemoveHotkey(h: string)
      modifies this
      ensures Abs() == old(Abs()).(bindings := Unbind(old(bindings), h))
    {
      bindings := Unbind(bindings, h);
    }

    /** `update_hotkey`. */
    method UpdateHotkey(h: string)
      modifies this
      ensures Abs() == Update(old(Abs()), h)
    {
      if !Contains(h, "windows") {
        settings := settings[HotkeyType := h];
        caption := h;
        SetHotkey(h);
      } else {
        notices := notices + [WindowsRefused];
      }
    }

    /** The game was found running and the data thread was not. */
    method OnGameStart()
      modifies this
      ensures Abs() == GameStarted(old(Abs()))
    {
      SetHotkey(hotkey);
    }

    /** The game is no longer running while the data thread was. */
    method OnGameStop()
      modifies this
      ensures Abs() == GameStopped(old(Abs()))
    {
      RemoveHotkey(hotkey);
    }
  }
}
