/** The export settings of `useShareSettings`: a record of named values (only
    `gameName` is known to the program) loaded over defaults, updated by object spread,
    and persisted after every change. */
module ShareSettings {
  import opened Common
  import opened Json

  /** A settings object: property name to value. Object spread is map union, the
      right operand winning. */
  type Settings = map<string, Json>

  const GameNameKey: string := "gameName"
  const DefaultGameName: string := "Kniffel Extreme (Sniper)"

  /** `defaultSettings`. */
  const DefaultSettings: Settings := map[GameNameKey := JStr(DefaultGameName)]

  /** Distinct indices have distinct decimal renderings. */
  lemma RenderingsBelowDiffer(n: nat)
    ensures forall i :: 0 <= i < n ==> NatToString(i) != NatToString(n)
  {
    forall i | 0 <= i < n {
      NatToStringInjective(i, n);
    }
  }

  /** The own properties an array contributes to an object spread: its items under
      the decimal renderings of their indices, and nothing else. */
  function IndexKeyed(items: seq<Json>): (r: Settings)
    ensures forall i :: 0 <= i < |items| ==> NatToString(i) in r && r[NatToString(i)] == items[i]
    ensures forall k :: k in r ==> exists i :: 0 <= i < |items| && NatToString(i) == k
  {
    if |items| == 0 then map[]
    else
      var n := |items| - 1;
      var prev := IndexKeyed(items[..n]);
      RenderingsBelowDiffer(n);
      AssignUnderKey(prev, NatToString, items, n);
      prev[NatToString(n) := items[n]]
  }

  /** Assigning item `n` under its key, distinct from the keys of the items below it,
      keeps those items where they are and adds only that key. */
  lemma AssignUnderKey<V>(prev: map<string, V>, key: nat -> string, items: seq<V>, n: nat)
    requires n < |items|
    requires forall i :: 0 <= i < n ==> key(i) != key(n)
    requires forall i :: 0 <= i < n ==> key(i) in prev && prev[key(i)] == items[i]
    requires forall k :: k in prev ==> exists i :: 0 <= i < n && key(i) == k
    ensures var r := prev[key(n) := items[n]];
            && (forall i :: 0 <= i < n + 1 ==> key(i) in r && r[key(i)] == items[i])
            && (forall k :: k in r ==> exists i :: 0 <= i < n + 1 && key(i) == k)
  {
  }

  /** `loadInitialSettings`: without a window, with nothing stored, with stored text
      that does not parse, or with a parsed value that is not an object, a copy of the
      defaults; otherwise the defaults overridden by the parsed object's properties (an
      array's properties are its indices). */
  function LoadInitialSettings(hasWindow: bool, saved: Stored): (r: Settings)
    ensures GameNameKey in r
    ensures DefaultSettings.Keys <= r.Keys
    ensures !hasWindow || !(saved.Parsed? && (saved.value.JObj? || saved.value.JArr?)) ==> r == DefaultSettings
    ensures hasWindow && saved.Parsed? && saved.value.JObj? ==>
              && r.Keys == DefaultSettings.Keys + saved.value.fields.Keys
              && (forall k :: k in saved.value.fields ==> r[k] == saved.value.fields[k])
              && (GameNameKey !in saved.value.fields ==> r[GameNameKey] == JStr(DefaultGameName))
    ensures hasWindow && saved.Parsed? && saved.value.JArr? ==>
              && (forall i :: 0 <= i < |saved.value.items| ==>
                    NatToString(i) in r && r[NatToString(i)] == saved.value.items[i])
              && (forall k :: k in r ==> k == GameNameKey || exists i :: 0 <= i < |saved.value.items| && NatToString(i) == k)
              && r[GameNameKey] == JStr(DefaultGameName)
  {
    if !hasWindow then DefaultSettings
    else
      match saved
      case Parsed(JObj(fields)) => DefaultSettings + fields
      case Parsed(JArr(items)) =>
        assert GameNameKey[0] == 'g';
        DefaultSettings + IndexKeyed(items)
      case _ => DefaultSettings
  }

  /** What the store persists loads back unchanged, as long as it holds a game name
      (which every state of the store does). */
  lemma LoadAfterPersist(s: Settings)
    requires GameNameKey in s
    ensures LoadInitialSettings(true, Parsed(JObj(s))) == s
  {
  }

  /** The `useShareSettings` hook: the current settings and, in a browser, the storage
      key the persisting effect writes after every change. */
  class ShareSettingsStore {
    const hasWindow: bool
    var shareSettings: Settings
    var saved: Stored

    /** The store always holds a game name; in a browser, storage holds what the store
        holds. */
    predicate Valid()
      reads this
    {
      GameNameKey in shareSettings && (hasWindow ==> saved == Parsed(JObj(shareSettings)))
    }

    /** Load, then persist what was loaded (only in a browser). */
    constructor (hasWindow: bool, stored: Stored)
      ensures Valid()
      ensures this.hasWindow == hasWindow
      ensures shareSettings == LoadInitialSettings(hasWindow, stored)
      ensures !hasWindow ==> saved == stored
    {
      this.hasWindow := hasWindow;
      shareSettings := LoadInitialSettings(hasWindow, stored);
      saved := if hasWindow then Parsed(JObj(LoadInitialSettings(hasWindow, stored))) else stored;
    }

    /** The persisting effect. */
    method Persist()
      requires GameNameKey in shareSettings
      modifies this`saved
      ensures Valid()
      ensures !hasWindow ==> saved == old(saved)
    {
      if hasWindow {
        saved := Parsed(JObj(shareSettings));
      }
    }

    /** `updateShareSettings`: the given properties replace the current ones; every
        property the update does not mention keeps its value. */
    method UpdateShareSettings(updates: Settings)
      requires Valid()
      modifies this
      ensures Valid()
      ensures shareSettings == old(shareSettings) + updates
      ensures forall k :: k in old(shareSettings) && k !in updates ==> shareSettings[k] == old(shareSettings)[k]
      ensures forall k :: k in updates ==> shareSettings[k] == updates[k]
    {
      shareSettings := shareSettings + updates;
      Persist();
    }

    /** `resetShareSettings`: exactly the defaults. */
    method ResetShareSettings()
      modifies this
      ensures Valid()
      ensures shareSettings == DefaultSettings
    {
      shareSettings := DefaultSettings;
      Persist();
    }
  }
}
