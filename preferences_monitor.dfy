/**
 * NetEase's `PreferencesMonitor`: it holds the app's shared preferences
 * once fetched, keeps its change listener registered on them, and reports
 * whether the "showLyricSetting" value selects translations. The callback's
 * calls are recorded, in order.
 */
module PreferencesMonitor {
  import opened Wrappers

  const SHOW_LYRIC_SETTING: string := "showLyricSetting"

  /** A `SharedPreferences` instance: its int values and whether the monitor's listener is registered on it. */
  class SharedPreferences {
    var ints: map<string, int>
    var listenerRegistered: bool

    constructor (ints: map<string, int>)
      ensures this.ints == ints && !listenerRegistered
    {
      this.ints := ints;
      listenerRegistered := false;
    }
  }

  /** `getInt("showLyricSetting", -1)` */
  function ShowLyricSetting(p: SharedPreferences): (v: int)
    reads p
    ensures SHOW_LYRIC_SETTING !in p.ints ==> v == -1
  {
    if SHOW_LYRIC_SETTING in p.ints then p.ints[SHOW_LYRIC_SETTING] else -1
  }

  /** `isTranslationSelected(preference)`: the stored value lies in 0..1; null preferences select nothing. */
  predicate IsTranslationSelected(p: SharedPreferences?)
    reads p
  {
    p != null && 0 <= ShowLyricSetting(p) <= 1
  }

  /** Without the key, or without preferences, no translation is selected. */
  lemma NotSelectedByDefault(p: SharedPreferences?)
    requires p == null || SHOW_LYRIC_SETTING !in p.ints
    ensures !IsTranslationSelected(p)
  {
    if p != null {
      assert ShowLyricSetting(p) == -1;
    }
  }

  /** Exactly the values 0 and 1 select translations. */
  lemma SelectedValues(p: SharedPreferences)
    requires SHOW_LYRIC_SETTING in p.ints
    ensures IsTranslationSelected(p) <==> p.ints[SHOW_LYRIC_SETTING] == 0 || p.ints[SHOW_LYRIC_SETTING] == 1
  {
  }

  class Monitor {
    var preferences: SharedPreferences?
    var methodResolved: bool
    var notified: seq<bool>

    /** The cached preferences, when there are any, carry the listener. */
    ghost predicate Valid()
      reads this, preferences
    {
      preferences != null ==> preferences.listenerRegistered
    }

    constructor ()
      ensures Valid() && preferences == null && !methodResolved && notified == []
    {
      preferences := null;
      methodResolved := false;
      notified := [];
    }

    /** `update(classLoader)`: the getter is resolved again, the listener unregistered and the cache cleared. */
    method Update()
      modifies this, preferences
      ensures Valid()
      ensures methodResolved && preferences == null && notified == old(notified)
      ensures old(preferences) != null ==> !old(preferences).listenerRegistered && old(preferences).ints == old(preferences.ints)
    {
      methodResolved := true;
      if preferences != null {
        preferences.listenerRegistered := false;
      }
      preferences := null;
    }

    /**
     * `lazyGetSharedPreferences()`: the cached preferences unchanged when
     * there are some; otherwise `app`, the preferences the getter returns,
     * which are cached and get the listener. Before `update` the getter is
     * null and the cast of its result throws, so the call needs it resolved.
     */
    method LazyGetSharedPreferences(app: SharedPreferences) returns (p: SharedPreferences)
      requires Valid() && methodResolved
      modifies this, app
      ensures Valid()
      ensures old(preferences) != null ==> p == old(preferences) && preferences == old(preferences)
      ensures old(preferences) != null ==> app.listenerRegistered == old(app.listenerRegistered)
      ensures old(preferences) == null ==> p == app && preferences == app && app.listenerRegistered
      ensures app.ints == old(app.ints) && notified == old(notified) && methodResolved
    {
      if preferences != null {
        return preferences;
      }
      preferences := app;
      app.listenerRegistered := true;
      p := app;
    }

    /** `isTranslationSelected()` with its default argument: read from the lazily fetched preferences. */
    method TranslationSelected(app: SharedPreferences) returns (selected: bool)
      requires Valid() && methodResolved
      modifies this, app
      ensures Valid()
      ensures preferences != null
      ensures selected == IsTranslationSelected(preferences)
      ensures old(preferences) != null ==> selected == IsTranslationSelected(old(preferences))
      ensures old(preferences) == null ==> selected == IsTranslationSelected(app)
    {
      var p := LazyGetSharedPreferences(app);
      selected := 0 <= ShowLyricSetting(p) <= 1;
    }

    /**
     * The change listener, run for a change of `key` in `p`: only a change
     * of "showLyricSetting" in preferences carrying the listener calls back,
     * with the value recomputed from them.
     */
    method OnSharedPreferenceChanged(p: SharedPreferences, key: string)
      modifies this
      ensures p.listenerRegistered && key == SHOW_LYRIC_SETTING ==> notified == old(notified) + [IsTranslationSelected(p)]
      ensures !(p.listenerRegistered && key == SHOW_LYRIC_SETTING) ==> notified == old(notified)
      ensures preferences == old(preferences) && methodResolved == old(methodResolved)
    {
      if p.listenerRegistered && key == SHOW_LYRIC_SETTING {
        notified := notified + [0 <= ShowLyricSetting(p) <= 1];
      }
    }
  }
}
