/**
 * The widget's update callback. For each widget instance the host asks to
 * redraw, it reads the cached weather values (each with a fixed fallback),
 * formats the update time, resolves the icon, wires a tap-to-launch action
 * when the app has a launch intent, and submits the view for that instance.
 */
module WidgetProvider {
  import opened Wrappers
  import opened WeatherIcons
  import opened UpdateTime

  // Keys under which the app caches the weather values.
  const TemperatureKey: string := "weather_widget_data"
  const LocationKey: string := "weather_widget_location"
  const DescriptionKey: string := "weather_widget_description"
  const IconKey: string := "weather_widget_icon"

  // What each field shows when its key is absent.
  const DefaultTemperature: string := "--°C"
  const DefaultLocation: string := "Vị trí không xác định"
  const DefaultDescription: string := "không có dữ liệu"
  const DefaultIconCode: string := "01d"

  /** The cached values, as the shared store holds them; a key may be absent. */
  type Snapshot = map<string, string>

  /** Flags added to the launch intent: start in a new task, clearing any old one. */
  datatype IntentFlag = NewTask | ClearTask

  /** Flags of the pending intent wrapping the launch intent. */
  datatype PendingIntentFlag = UpdateCurrent | Immutable

  /** The view of the widget layout a tap action is bound to: the root container. */
  datatype ViewId = WidgetContainer

  /** A tap on `target` starts the app's launch activity with these flags. */
  datatype TapAction = TapAction(
    target: ViewId,
    requestCode: int,
    intentFlags: set<IntentFlag>,
    pendingFlags: set<PendingIntentFlag>)

  /** The tap action the callback binds when the app can be launched. */
  const LaunchTap: TapAction :=
    TapAction(WidgetContainer, 0, {NewTask, ClearTask}, {UpdateCurrent, Immutable})

  /** What one widget instance is told to show. */
  datatype WidgetView = WidgetView(
    temperatureText: string,
    locationText: string,
    descriptionText: string,
    updateTimeText: string,
    icon: Drawable,
    tap: Option<TapAction>)

  /** One call of the host's update API: this view for this widget instance. */
  datatype Update = Update(widgetId: int, view: WidgetView)

  /** A cached string, or the fallback when the key is absent. */
  function CachedString(snapshot: Snapshot, key: string, fallback: string): (r: string)
    ensures key in snapshot ==> r == snapshot[key]
    ensures key !in snapshot ==> r == fallback
  {
    if key in snapshot then snapshot[key] else fallback
  }

  /** The icon code the callback resolves: the cached one, or "01d". */
  function IconCode(snapshot: Snapshot): (code: string)
    ensures IconKey in snapshot ==> code == snapshot[IconKey]
    ensures IconKey !in snapshot ==> code == DefaultIconCode && WeatherIconResource(code) == ClearDay
  {
    CachedString(snapshot, IconKey, DefaultIconCode)
  }

  /**
   * The guarded icon assignment: the drawable the lookup returned, or, when
   * the lookup failed (`None`), the system compass icon set by the handler.
   */
  function GuardedIcon(lookup: Option<Drawable>): (d: Drawable)
    ensures lookup.Some? ==> d == lookup.value
    ensures lookup.None? ==> d == DefaultIcon
  {
    match lookup
    case Some(d) => d
    case None => Compass
  }

  /**
   * The handler never changes what is shown: the lookup is total, so its
   * outcome is always a drawable, and the handler's icon is the very one the
   * lookup gives every unlisted code.
   */
  lemma IconFallbackIsInert(code: string)
    ensures GuardedIcon(Some(WeatherIconResource(code))) == WeatherIconResource(code)
    ensures code !in KnownCodes ==> GuardedIcon(None) == WeatherIconResource(code)
  {
  }

  /** The view the callback builds for one widget instance. */
  function BuildView(snapshot: Snapshot, now: ClockReading, hasLaunchIntent: bool): (v: WidgetView)
    ensures v.tap.Some? <==> hasLaunchIntent
  {
    WidgetView(
      CachedString(snapshot, TemperatureKey, DefaultTemperature),
      CachedString(snapshot, LocationKey, DefaultLocation),
      CachedString(snapshot, DescriptionKey, DefaultDescription),
      UpdateTimeText(now),
      GuardedIcon(Some(WeatherIconResource(IconCode(snapshot)))),
      if hasLaunchIntent then Some(LaunchTap) else None)
  }

  /** Each text field shows its cached value unchanged, or its fallback when the key is absent. */
  lemma CachedFieldsShown(snapshot: Snapshot, now: ClockReading, hasLaunchIntent: bool)
    ensures var v := BuildView(snapshot, now, hasLaunchIntent);
      && (TemperatureKey in snapshot ==> v.temperatureText == snapshot[TemperatureKey])
      && (TemperatureKey !in snapshot ==> v.temperatureText == DefaultTemperature)
      && (LocationKey in snapshot ==> v.locationText == snapshot[LocationKey])
      && (LocationKey !in snapshot ==> v.locationText == DefaultLocation)
      && (DescriptionKey in snapshot ==> v.descriptionText == snapshot[DescriptionKey])
      && (DescriptionKey !in snapshot ==> v.descriptionText == DefaultDescription)
  {
  }

  /**
   * The icon is the lookup of the cached code; with no code cached it is the
   * clear-day icon, the drawable of the fallback code "01d".
   */
  lemma ShownIconIsLookup(snapshot: Snapshot, now: ClockReading, hasLaunchIntent: bool)
    ensures var v := BuildView(snapshot, now, hasLaunchIntent);
      && (IconKey in snapshot ==> v.icon == WeatherIconResource(snapshot[IconKey]))
      && (IconKey !in snapshot ==> v.icon == ClearDay)
  {
  }

  /** The time field is the label followed by the "HH:mm" of the clock reading. */
  lemma ShownUpdateTime(snapshot: Snapshot, now: ClockReading, hasLaunchIntent: bool)
    ensures var t := BuildView(snapshot, now, hasLaunchIntent).updateTimeText;
      && |t| == |UpdateLabel| + 5
      && t[..|UpdateLabel|] == UpdateLabel
      && ParseHHmm(t[|UpdateLabel|..]) == Some(now)
  {
  }

  /**
   * A tap action is bound if and only if the app has a launch intent; it sits
   * on the widget's root container and starts the app in a fresh task.
   */
  lemma TapActionIffLaunchIntent(snapshot: Snapshot, now: ClockReading, hasLaunchIntent: bool)
    ensures var tap := BuildView(snapshot, now, hasLaunchIntent).tap;
      && (tap.Some? <==> hasLaunchIntent)
      && (tap.Some? ==> tap.value == LaunchTap)
  {
  }

  /**
   * How one batch builds its views: the snapshot and the launch-intent check
   * are the same for every widget instance, the clock reading is not.
   */
  function ViewBuilder(snapshot: Snapshot, hasLaunchIntent: bool): ClockReading -> WidgetView
  {
    now => BuildView(snapshot, now, hasLaunchIntent)
  }

  /**
   * The updates for a list of widget IDs, whatever builds their views: the
   * updates for all IDs but the last, then the update for that ID, whose view
   * is built from its own clock reading.
   */
  function UpdatesFor(widgetIds: seq<int>, clock: seq<ClockReading>, build: ClockReading -> WidgetView)
    : (updates: seq<Update>)
    requires |clock| == |widgetIds|
    ensures |updates| == |widgetIds|
  {
    if widgetIds == [] then []
    else
      var n := |widgetIds| - 1;
      UpdatesFor(widgetIds[..n], clock[..n], build) + [Update(widgetIds[n], build(clock[n]))]
  }

  /** Update i carries ID i and the view built from the i-th clock reading. */
  lemma {:induction false} UpdatesForAt(
    widgetIds: seq<int>, clock: seq<ClockReading>, build: ClockReading -> WidgetView, i: int)
    requires |clock| == |widgetIds| && 0 <= i < |widgetIds|
    ensures UpdatesFor(widgetIds, clock, build)[i] == Update(widgetIds[i], build(clock[i]))
  {
    var n := |widgetIds| - 1;
    if i < n {
      UpdatesForAt(widgetIds[..n], clock[..n], build, i);
      assert widgetIds[..n][i] == widgetIds[i] && clock[..n][i] == clock[i];
    }
  }

  /**
   * The updates the callback submits for a batch. `clock[i]` is the reading
   * taken while building the view for `widgetIds[i]`; the snapshot and the
   * launch-intent check are the same for the whole batch.
   */
  function Batch(widgetIds: seq<int>, snapshot: Snapshot, clock: seq<ClockReading>, hasLaunchIntent: bool)
    : (updates: seq<Update>)
    requires |clock| == |widgetIds|
    ensures |updates| == |widgetIds|
  {
    UpdatesFor(widgetIds, clock, ViewBuilder(snapshot, hasLaunchIntent))
  }

  /** Update i of a batch carries ID i and the view built from the i-th clock reading. */
  lemma BatchAt(
    widgetIds: seq<int>, snapshot: Snapshot, clock: seq<ClockReading>, hasLaunchIntent: bool, i: int)
    requires |clock| == |widgetIds| && 0 <= i < |widgetIds|
    ensures Batch(widgetIds, snapshot, clock, hasLaunchIntent)[i]
         == Update(widgetIds[i], BuildView(snapshot, clock[i], hasLaunchIntent))
  {
    UpdatesForAt(widgetIds, clock, ViewBuilder(snapshot, hasLaunchIntent), i);
  }

  /**
   * A batch submits exactly one update per ID, in input order, whether or not
   * a launch intent exists.
   */
  lemma BatchIds(widgetIds: seq<int>, snapshot: Snapshot, clock: seq<ClockReading>, hasLaunchIntent: bool)
    requires |clock| == |widgetIds|
    ensures UpdatedIds(Batch(widgetIds, snapshot, clock, hasLaunchIntent)) == widgetIds
  {
    ghost var build := ViewBuilder(snapshot, hasLaunchIntent);
    var updates := UpdatesFor(widgetIds, clock, build);
    forall i | 0 <= i < |widgetIds|
      ensures UpdatedIds(updates)[i] == widgetIds[i]
    {
      UpdatesForAt(widgetIds, clock, build, i);
    }
  }

  /**
   * The callback: walks the widget IDs in order and submits one update for
   * each. The clock is read afresh for each instance, so `clock[i]` is the
   * reading taken while building the view for `widgetIds[i]`.
   */
  method OnUpdate(widgetIds: seq<int>, snapshot: Snapshot, clock: seq<ClockReading>, hasLaunchIntent: bool)
    returns (updates: seq<Update>)
    requires |clock| == |widgetIds|
    ensures updates == Batch(widgetIds, snapshot, clock, hasLaunchIntent)
  {
    ghost var build := ViewBuilder(snapshot, hasLaunchIntent);
    updates := [];
    for i := 0 to |widgetIds|
      invariant updates == UpdatesFor(widgetIds[..i], clock[..i], build)
    {
      var view := BuildView(snapshot, clock[i], hasLaunchIntent);
      assert view == build(clock[i]);
      assert widgetIds[..i + 1][..i] == widgetIds[..i] && clock[..i + 1][..i] == clock[..i];
      updates := updates + [Update(widgetIds[i], view)];
    }
    assert widgetIds[..|widgetIds|] == widgetIds && clock[..|clock|] == clock;
  }

  /** The widget IDs the updates carry, in order. */
  function UpdatedIds(updates: seq<Update>): (ids: seq<int>)
    ensures |ids| == |updates|
    ensures forall i :: 0 <= i < |ids| ==> ids[i] == updates[i].widgetId
  {
    if updates == [] then [] else [updates[0].widgetId] + UpdatedIds(updates[1..])
  }

  /** With nothing cached, every field shows its fallback and the icon is the clear-day one. */
  lemma EmptySnapshotShowsDefaults(now: ClockReading, hasLaunchIntent: bool)
    ensures var v := BuildView(map[], now, hasLaunchIntent);
      && v.temperatureText == DefaultTemperature
      && v.locationText == DefaultLocation
      && v.descriptionText == DefaultDescription
      && v.icon == ClearDay
  {
  }

  /** A fully cached snapshot is shown verbatim, with the icon of its code. */
  lemma CachedSnapshotShown(now: ClockReading)
    ensures var snapshot := map[TemperatureKey := "22°C", LocationKey := "Hanoi",
                                DescriptionKey := "clear", IconKey := "01d"];
      var v := BuildView(snapshot, now, true);
      && v.temperatureText == "22°C"
      && v.locationText == "Hanoi"
      && v.descriptionText == "clear"
      && v.icon == ClearDay
      && v.updateTimeText == UpdateLabel + FormatHHmm(now)
  {
  }
}
