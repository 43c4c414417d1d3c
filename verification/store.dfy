/**
 * The preference file, as the record of optional fields its JSON object
 * holds. Both versions of the program use the same file: the first writes
 * four keys, the second adds `volume`. Each field is either missing, or
 * present and convertible by `int()`/`float()`, or present but not
 * convertible (the conversion raises and the rest of the load is skipped).
 */
module Store {
  import opened Wrappers
  import Settings
  import opened Countdown

  datatype Field<T> = Missing | Present(value: T) | Unreadable

  /**
   * `NoFile`: the file does not exist. `Corrupt`: its text is not JSON or not
   * an object, so the load fails before assigning anything. `pingUnit` can
   * never be unreadable, since `str()` accepts any JSON value.
   */
  datatype Store =
    | NoFile
    | Corrupt
    | Object(
        setsDone: Field<int>,
        setMinutes: Field<int>,
        pingValue: Field<int>,
        pingUnit: Option<string>,
        volume: Field<int>)

  /** `data.get(key, default)` followed by the conversion; `None` when it raises. */
  function Read<T>(f: Field<T>, default: T): (r: Option<T>)
    ensures f.Missing? ==> r == Some(default)
    ensures f.Present? ==> r == Some(f.value)
    ensures f.Unreadable? <==> r.None?
  {
    match f
    case Missing => Some(default)
    case Present(v) => Some(v)
    case Unreadable => None
  }

  /**
   * The assignments both loaders share, in the order they happen, stopping
   * at the first conversion that raises. `ok` is false when one did.
   */
  function LoadSettings(store: Store, t: Timer): (r: (Timer, bool))
    requires store.Object?
    ensures r.1 <==> !store.setsDone.Unreadable? && !store.setMinutes.Unreadable? && !store.pingValue.Unreadable?
    ensures r.1 ==> r.0 == t.(
      setsDone := Read(store.setsDone, 0).value,
      setMinutes := Read(store.setMinutes, Settings.DefaultSetMinutes).value,
      pingValue := Read(store.pingValue, Settings.DefaultPingValue).value,
      pingUnit := store.pingUnit.GetOr(Settings.DefaultPingUnit))
    ensures r.0.(setsDone := t.setsDone, setMinutes := t.setMinutes, pingValue := t.pingValue, pingUnit := t.pingUnit) == t
    ensures store.setsDone.Unreadable? ==> r.0 == t
    ensures !store.setsDone.Unreadable? && store.setMinutes.Unreadable? ==>
      r.0 == t.(setsDone := Read(store.setsDone, 0).value)
    ensures !store.setsDone.Unreadable? && !store.setMinutes.Unreadable? && store.pingValue.Unreadable? ==>
      r.0 == t.(setsDone := Read(store.setsDone, 0).value,
                setMinutes := Read(store.setMinutes, Settings.DefaultSetMinutes).value)
  {
    match Read(store.setsDone, 0)
    case None => (t, false)
    case Some(done) =>
      var t1 := t.(setsDone := done);
      match Read(store.setMinutes, Settings.DefaultSetMinutes)
      case None => (t1, false)
      case Some(minutes) =>
        var t2 := t1.(setMinutes := minutes);
        match Read(store.pingValue, Settings.DefaultPingValue)
        case None => (t2, false)
        case Some(ping) =>
          (t2.(pingValue := ping, pingUnit := store.pingUnit.GetOr(Settings.DefaultPingUnit)), true)
  }

  /** The last step of a load that succeeded: target, cadence and countdown follow the settings. */
  function Recompute(t: Timer): (r: Timer)
    ensures r.target == t.setMinutes * 60 && r.remaining == r.target
    ensures r.interval == Settings.PingInterval(t.pingUnit, t.pingValue)
    ensures r.(target := t.target, remaining := t.remaining, interval := t.interval) == t
  {
    t.(target := t.setMinutes * 60,
       interval := Settings.PingInterval(t.pingUnit, t.pingValue),
       remaining := t.setMinutes * 60)
  }

  /** No conversion of the four shared keys raises. */
  predicate Loads(store: Store) {
    store.Object? && !store.setsDone.Unreadable? && !store.setMinutes.Unreadable? && !store.pingValue.Unreadable?
  }

  /** The four shared settings are the file's values, or the defaults for missing keys. */
  ghost predicate FromFile(t: Timer, store: Store)
    requires Loads(store)
  {
    && t.setsDone == Read(store.setsDone, 0).value
    && t.setMinutes == Read(store.setMinutes, Settings.DefaultSetMinutes).value
    && t.pingValue == Read(store.pingValue, Settings.DefaultPingValue).value
    && t.pingUnit == store.pingUnit.GetOr(Settings.DefaultPingUnit)
  }

  /** Target, cadence and a full countdown follow the settings. */
  ghost predicate Settled(t: Timer) {
    t.target == t.setMinutes * 60 && t.remaining == t.target
    && t.interval == Settings.PingInterval(t.pingUnit, t.pingValue)
  }

  /** Target, cadence and countdown are those of `before`. */
  ghost predicate Untouched(t: Timer, before: Timer) {
    t.target == before.target && t.remaining == before.remaining && t.interval == before.interval
  }

  /** `_load_state` of the first version; the volume key is ignored. */
  function LoadV1(store: Store, t: Timer): (r: Timer)
    ensures !store.Object? ==> r == t
    ensures r.running == t.running && r.pending == t.pending && r.volume == t.volume
    ensures Loads(store) ==> Settled(r) && FromFile(r, store)
    ensures store.Object? && !Loads(store) ==> Untouched(r, t) && r == LoadSettings(store, t).0
  {
    if !store.Object? then t
    else
      var (loaded, ok) := LoadSettings(store, t);
      if ok then Recompute(loaded) else loaded
  }

  /** `_load_state` of the second version, which also reads the volume. */
  function LoadV2(store: Store, t: Timer): (r: Timer)
    ensures !store.Object? ==> r == t
    ensures r.running == t.running && r.pending == t.pending
    ensures Loads(store) && !store.volume.Unreadable? ==>
      Settled(r) && FromFile(r, store) && r.volume == Read(store.volume, Settings.DefaultVolume).value
    ensures store.Object? && (!Loads(store) || store.volume.Unreadable?) ==>
      Untouched(r, t) && r.volume == t.volume && r == LoadSettings(store, t).0
  {
    if !store.Object? then t
    else
      var (loaded, ok) := LoadSettings(store, t);
      if !ok then loaded
      else match Read(store.volume, Settings.DefaultVolume)
        case None => loaded
        case Some(v) => Recompute(loaded.(volume := v))
  }

  /** `_save_state` of the first version: four keys, no volume. */
  function SaveV1(t: Timer): (r: Store)
    ensures Loads(r) && r.volume.Missing?
    ensures r.setsDone.Present? && r.setMinutes.Present? && r.pingValue.Present? && r.pingUnit.Some?
    ensures forall u :: SamePersisted(LoadV1(r, u), t) && LoadV1(r, u).volume == u.volume
  {
    Object(Present(t.setsDone), Present(t.setMinutes), Present(t.pingValue), Some(t.pingUnit), Missing)
  }

  /** `_save_state` of the second version: the four keys and the volume. */
  function SaveV2(t: Timer): (r: Store)
    ensures Loads(r) && r.volume.Present?
    ensures r.setsDone.Present? && r.setMinutes.Present? && r.pingValue.Present? && r.pingUnit.Some?
    ensures forall u :: SamePersisted(LoadV2(r, u), t) && LoadV2(r, u).volume == t.volume
  {
    Object(Present(t.setsDone), Present(t.setMinutes), Present(t.pingValue), Some(t.pingUnit), Present(t.volume))
  }

  /** The fields both versions persist agree. */
  ghost predicate SamePersisted(a: Timer, b: Timer) {
    && a.setsDone == b.setsDone
    && a.setMinutes == b.setMinutes
    && a.pingValue == b.pingValue
    && a.pingUnit == b.pingUnit
  }

  /**
   * Saving then loading in the second version reproduces all five persisted
   * fields, recomputes target, cadence and countdown from them, and leaves
   * the running state of the loading timer alone.
   */
  lemma SaveLoadV2(t: Timer, u: Timer)
    ensures var r := LoadV2(SaveV2(t), u);
      && SamePersisted(r, t) && r.volume == t.volume
      && r.target == t.setMinutes * 60 && r.remaining == r.target
      && r.interval == Settings.PingInterval(t.pingUnit, t.pingValue)
      && r.running == u.running && r.pending == u.pending
  {
  }

  /** The same for the first version, whose file carries no volume. */
  lemma SaveLoadV1(t: Timer, u: Timer)
    ensures var r := LoadV1(SaveV1(t), u);
      && SamePersisted(r, t) && r.volume == u.volume
      && r.target == t.setMinutes * 60 && r.remaining == r.target
      && r.interval == Settings.PingInterval(t.pingUnit, t.pingValue)
      && r.running == u.running && r.pending == u.pending
  {
  }

  /**
   * A restart: the program builds its initial fields and loads what it last
   * saved. A sane state comes back sane, idle, with a full countdown and the
   * same settings and count.
   */
  lemma RestartV2(t: Timer)
    requires Valid(t)
    ensures var r := LoadV2(SaveV2(t), Initial());
      && Valid(r) && !r.running && r.remaining == r.target
      && SamePersisted(r, t) && r.volume == t.volume && r.target == t.target && r.interval == t.interval
  {
    SaveLoadV2(t, Initial());
  }

  /** A file with none of the keys yields exactly the documented defaults. */
  lemma LoadDefaultsV2(u: Timer)
    ensures var r := LoadV2(Object(Missing, Missing, Missing, None, Missing), u);
      && r.setsDone == 0 && r.setMinutes == 30 && r.pingValue == 5 && r.pingUnit == "Minutes"
      && r.volume == 50 && r.target == 1800 && r.remaining == 1800 && r.interval == Some(300)
  {
  }

  lemma LoadDefaultsV1(u: Timer)
    ensures var r := LoadV1(Object(Missing, Missing, Missing, None, Missing), u);
      && r.setsDone == 0 && r.setMinutes == 30 && r.pingValue == 5 && r.pingUnit == "Minutes"
      && r.volume == u.volume && r.target == 1800 && r.remaining == 1800 && r.interval == Some(300)
  {
  }

  /** No file, or one that is not a JSON object: the fields keep their values. */
  lemma LoadNothing(store: Store, u: Timer)
    requires !store.Object?
    ensures LoadV1(store, u) == u && LoadV2(store, u) == u
  {
  }

  /**
   * A volume that `float()` rejects stops the second version's load after
   * the four settings are assigned: they are taken from the file, but target,
   * cadence, countdown and volume keep their previous values.
   */
  lemma UnreadableVolumeV2(store: Store, u: Timer)
    requires store.Object? && store.volume.Unreadable?
    requires !store.setsDone.Unreadable? && !store.setMinutes.Unreadable? && !store.pingValue.Unreadable?
    ensures var r := LoadV2(store, u);
      && r.setsDone == Read(store.setsDone, 0).value
      && r.setMinutes == Read(store.setMinutes, Settings.DefaultSetMinutes).value
      && r.pingValue == Read(store.pingValue, Settings.DefaultPingValue).value
      && r.pingUnit == store.pingUnit.GetOr(Settings.DefaultPingUnit)
      && r.target == u.target && r.remaining == u.remaining
      && r.interval == u.interval && r.volume == u.volume
  {
  }

  /**
   * An unreadable set length stops either load after the count: the count
   * is taken from the file and everything else keeps its previous value.
   */
  lemma UnreadableMinutes(store: Store, u: Timer)
    requires store.Object? && !store.setsDone.Unreadable? && store.setMinutes.Unreadable?
    ensures LoadV1(store, u) == u.(setsDone := Read(store.setsDone, 0).value)
    ensures LoadV2(store, u) == u.(setsDone := Read(store.setsDone, 0).value)
  {
  }

  /** An unreadable set count stops either load before anything is assigned. */
  lemma UnreadableCount(store: Store, u: Timer)
    requires store.Object? && store.setsDone.Unreadable?
    ensures LoadV1(store, u) == u && LoadV2(store, u) == u
  {
  }

  /**
   * An unreadable ping value stops either load after the count and the set
   * length: those two come from the file, the ping unit, target, cadence
   * and countdown keep their previous values.
   */
  lemma UnreadablePingValue(store: Store, u: Timer)
    requires store.Object? && !store.setsDone.Unreadable? && !store.setMinutes.Unreadable?
    requires store.pingValue.Unreadable?
    ensures var expected := u.(setsDone := Read(store.setsDone, 0).value,
                               setMinutes := Read(store.setMinutes, Settings.DefaultSetMinutes).value);
      LoadV1(store, u) == expected && LoadV2(store, u) == expected
  {
  }

  /** A file written by the first version, loaded by the second, gets the default volume. */
  lemma CrossVersion(t: Timer, u: Timer)
    ensures var r := LoadV2(SaveV1(t), u);
      SamePersisted(r, t) && r.volume == Settings.DefaultVolume && r.remaining == t.setMinutes * 60
    ensures var r := LoadV1(SaveV2(t), u);
      SamePersisted(r, t) && r.volume == u.volume && r.remaining == t.setMinutes * 60
  {
  }
}
