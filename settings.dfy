/**
 * Settings: the persisted per-hour overrides, how they are loaded over the
 * built-in schedule, how the update request changes the schedule and what
 * it persists, and what reset stores.
 */
module Settings {

  import opened Wrappers
  import opened Arduino
  import opened Schedule

  /** A key of the `pwmSettings` preferences namespace: "white<h>", "blue<h>" or "purple<h>". */
  datatype Key = Key(channel: int, hour: int)

  /** The contents of the preferences namespace. */
  type Store = map<Key, int>

  /** The value reset stores, and the default read for a missing key: "no override". */
  const Unset: int := -1

  /** `Preferences::getInt(key, default)`. */
  function GetInt(store: Store, key: Key, default: int): (v: int)
    ensures key in store ==> v == store[key]
    ensures key !in store ==> v == default
  {
    if key in store then store[key] else default
  }

  /** The override stored for a cell: the stored value, or -1 when the key is missing. */
  function Override(store: Store, hour: int, channel: int): (v: int)
    ensures Key(channel, hour) !in store ==> v == Unset
    ensures Key(channel, hour) in store ==> v == store[Key(channel, hour)]
  {
    GetInt(store, Key(channel, hour), Unset)
  }

  /** `savePwmToPreferences`: store the three duties of one hour. */
  function SaveRow(store: Store, hour: int, white: int, blue: int, purple: int): (r: Store)
    ensures Override(r, hour, 0) == white && Override(r, hour, 1) == blue && Override(r, hour, 2) == purple
    ensures forall h, c :: h != hour || c < 0 || Channels <= c ==> Override(r, h, c) == Override(store, h, c)
  {
    store[Key(0, hour) := white][Key(1, hour) := blue][Key(2, hour) := purple]
  }

  /** The table that loading the overrides of `store` produces from `t`. */
  function Merge(t: Table, store: Store): (r: Table)
    requires IsTable(t)
    ensures IsTable(r)
    ensures forall h, c :: 0 <= h < Hours && 0 <= c < Channels ==>
              r[h][c] == if Override(store, h, c) >= 0 then Override(store, h, c) else t[h][c]
  {
    seq(Hours, h requires 0 <= h < Hours =>
      seq(Channels, c requires 0 <= c < Channels =>
        if Override(store, h, c) >= 0 then Override(store, h, c) else t[h][c]))
  }

  ghost predicate NonNegative(t: Table)
    requires IsTable(t)
  {
    forall h, c :: 0 <= h < Hours && 0 <= c < Channels ==> t[h][c] >= 0
  }

  /** Two tables with the same cells are equal. */
  lemma TableExtensionality(a: Table, b: Table)
    requires IsTable(a) && IsTable(b)
    requires forall h, c :: 0 <= h < Hours && 0 <= c < Channels ==> a[h][c] == b[h][c]
    ensures a == b
  {
    forall h | 0 <= h < Hours
      ensures a[h] == b[h]
    {
      assert forall c :: 0 <= c < Channels ==> a[h][c] == b[h][c];
    }
  }

  /** Loading changes only cells whose override is zero or more, and loading twice is loading once. */
  lemma MergeIdempotent(t: Table, store: Store)
    requires IsTable(t)
    ensures Merge(Merge(t, store), store) == Merge(t, store)
  {
    TableExtensionality(Merge(Merge(t, store), store), Merge(t, store));
  }

  /** The store after `/reset` has written -1 for the three channels of hours 0 .. n - 1. */
  function ResetUpTo(store: Store, n: nat): (r: Store)
    ensures forall h, c :: 0 <= h < n && 0 <= c < Channels ==> Override(r, h, c) == Unset
    ensures store.Keys <= r.Keys
    decreases n
  {
    if n == 0 then store else SaveRow(ResetUpTo(store, n - 1), n - 1, Unset, Unset, Unset)
  }

  /** After the reset loop has passed an hour, that hour's three overrides read -1; later hours are untouched. */
  lemma {:induction false} ResetUpToClears(store: Store, n: nat, h: int, c: int)
    ensures 0 <= h < n && 0 <= c < Channels ==> Override(ResetUpTo(store, n), h, c) == Unset
    ensures n <= h ==> Override(ResetUpTo(store, n), h, c) == Override(store, h, c)
    decreases n
  {
    if n > 0 {
      ResetUpToClears(store, n - 1, h, c);
    }
  }

  /** After a full reset, loading leaves any table, in particular the built-in one, unchanged. */
  lemma LoadAfterResetKeepsTable(t: Table, store: Store)
    requires IsTable(t)
    ensures Merge(t, ResetUpTo(store, Hours)) == t
  {
    forall h, c | 0 <= h < Hours && 0 <= c < Channels
      ensures Merge(t, ResetUpTo(store, Hours))[h][c] == t[h][c]
    {
      ResetUpToClears(store, Hours, h, c);
    }
    TableExtensionality(Merge(t, ResetUpTo(store, Hours)), t);
  }

  /** The `/update` request's arguments, each absent (an empty argument) or already parsed by `toInt`. */
  datatype Request = Request(hour: Option<int>, white: Option<int>, blue: Option<int>,
                             purple: Option<int>, fan: Option<int>)

  /** The hour a branch writes: an absent `hour` argument parses to 0. */
  function HourArg(req: Request): (h: int)
    ensures req.hour.Some? ==> h == req.hour.value
    ensures req.hour.None? ==> h == 0
  {
    req.hour.GetOr(0)
  }

  /**
   * Whether a channel's branch runs: white and blue need `hour` and their own
   * argument; purple needs `purple` and `white`.
   */
  predicate Fires(req: Request, channel: int)
    ensures Fires(req, channel) ==> 0 <= channel < Channels && ChannelArg(req, channel).Some?
    ensures Fires(req, channel) && channel != 2 ==> req.hour.Some?
  {
    match channel
    case 0 => req.hour.Some? && req.white.Some?
    case 1 => req.hour.Some? && req.blue.Some?
    case 2 => req.purple.Some? && req.white.Some?
    case _ => false
  }

  /** The value argument of a channel's branch. */
  function ChannelArg(req: Request, channel: int): Option<int> {
    match channel
    case 0 => req.white
    case 1 => req.blue
    case 2 => req.purple
    case _ => None
  }

  /** The schedule together with the preferences that persist it. */
  datatype Config = Config(table: Table, store: Store)

  /**
   * One channel branch of `/update`: clamp the value to [0, 1000]; if the hour
   * is in 0..23, write the cell and persist the hour's three duties.
   */
  function WriteChannel(s: Config, hour: int, channel: int, value: int): (r: Config)
    requires IsTable(s.table) && 0 <= channel < Channels
    ensures IsTable(r.table)
    ensures !(0 <= hour <= 23) ==> r == s
    ensures forall h, c :: 0 <= h < Hours && 0 <= c < Channels ==>
              r.table[h][c] == if h == hour && c == channel then Constrain(value, 0, MaxDuty) else s.table[h][c]
    ensures 0 <= hour <= 23 ==> forall c :: 0 <= c < Channels ==> Override(r.store, hour, c) == r.table[hour][c]
    ensures forall h, c :: h != hour || c < 0 || Channels <= c ==> Override(r.store, h, c) == Override(s.store, h, c)
  {
    if 0 <= hour <= 23 then
      var row := s.table[hour][channel := Constrain(value, 0, MaxDuty)];
      Config(s.table[hour := row], SaveRow(s.store, hour, row[0], row[1], row[2]))
    else
      s
  }

  /** The three channel branches of `/update`, in the order the handler runs them. */
  function UpdateChannels(s: Config, req: Request): (r: Config)
    requires IsTable(s.table)
    ensures IsTable(r.table)
    ensures forall h :: 0 <= h < Hours && h != HourArg(req) ==> r.table[h] == s.table[h]
    ensures !Fires(req, 0) && !Fires(req, 1) && !Fires(req, 2) ==> r == s
    ensures forall h, c :: h != HourArg(req) || c < 0 || Channels <= c ==>
              Override(r.store, h, c) == Override(s.store, h, c)
  {
    var s1 := if Fires(req, 0) then WriteChannel(s, req.hour.value, 0, req.white.value) else s;
    var s2 := if Fires(req, 1) then WriteChannel(s1, req.hour.value, 1, req.blue.value) else s1;
    if Fires(req, 2) then WriteChannel(s2, HourArg(req), 2, req.purple.value) else s2
  }

  /**
   * An update changes exactly the cells `[hour][channel]` whose branch runs,
   * to the clamped value, and only when the hour is in 0..23; every other
   * cell keeps its value.
   */
  lemma UpdateChannelsCells(s: Config, req: Request)
    requires IsTable(s.table)
    ensures forall h, c :: 0 <= h < Hours && 0 <= c < Channels ==>
              UpdateChannels(s, req).table[h][c]
              == if Fires(req, c) && h == HourArg(req)
                 then Constrain(ChannelArg(req, c).value, 0, MaxDuty)
                 else s.table[h][c]
  {
  }

  /** A request whose hour is outside 0..23 leaves the schedule and the preferences untouched. */
  lemma UpdateOutOfRangeHourIgnored(s: Config, req: Request)
    requires IsTable(s.table)
    requires !(0 <= HourArg(req) <= 23)
    ensures UpdateChannels(s, req) == s
  {
  }

  /**
   * The purple branch is gated on `white`, not on `hour`: without a `white`
   * argument the purple column is never written, even with `hour` and `purple`.
   */
  lemma PurpleNeedsWhite(s: Config, req: Request)
    requires IsTable(s.table)
    requires req.white.None?
    ensures forall h :: 0 <= h < Hours ==> UpdateChannels(s, req).table[h][2] == s.table[h][2]
    ensures req.blue.None? ==> UpdateChannels(s, req) == s
  {
    UpdateChannelsCells(s, req);
  }

  /** With `white` and `purple` but no `hour`, only purple is written, at hour 0. */
  lemma HourlessPurpleWritesHourZero(s: Config, req: Request)
    requires IsTable(s.table)
    requires req.hour.None? && req.white.Some? && req.purple.Some?
    ensures UpdateChannels(s, req).table
            == s.table[0 := s.table[0][2 := Constrain(req.purple.value, 0, MaxDuty)]]
  {
  }

  /** The preferences reproduce the table: loading them over `base` gives it back. */
  ghost predicate Persisted(base: Table, s: Config)
    requires IsTable(base) && IsTable(s.table)
  {
    Merge(base, s.store) == s.table && NonNegative(s.table)
  }

  lemma WriteChannelPersists(base: Table, s: Config, hour: int, channel: int, value: int)
    requires IsTable(base) && IsTable(s.table) && 0 <= channel < Channels
    requires Persisted(base, s)
    ensures Persisted(base, WriteChannel(s, hour, channel, value))
  {
    var r := WriteChannel(s, hour, channel, value);
    if 0 <= hour <= 23 {
      forall h, c | 0 <= h < Hours && 0 <= c < Channels
        ensures Merge(base, r.store)[h][c] == r.table[h][c]
      {
        if h != hour {
          assert Merge(base, s.store)[h][c] == s.table[h][c];
        }
      }
      TableExtensionality(Merge(base, r.store), r.table);
    }
  }

  /**
   * Every update keeps the preferences in step with the table: a power cycle
   * after any sequence of updates reloads the schedule the updates produced.
   */
  lemma UpdateChannelsPersists(base: Table, s: Config, req: Request)
    requires IsTable(base) && IsTable(s.table)
    requires Persisted(base, s)
    ensures Persisted(base, UpdateChannels(s, req))
  {
    var s1 := if Fires(req, 0) then WriteChannel(s, req.hour.value, 0, req.white.value) else s;
    if Fires(req, 0) { WriteChannelPersists(base, s, req.hour.value, 0, req.white.value); }
    var s2 := if Fires(req, 1) then WriteChannel(s1, req.hour.value, 1, req.blue.value) else s1;
    if Fires(req, 1) { WriteChannelPersists(base, s1, req.hour.value, 1, req.blue.value); }
    if Fires(req, 2) { WriteChannelPersists(base, s2, HourArg(req), 2, req.purple.value); }
  }
}
