# WeatherNow home-screen widget: a Dafny model

This project models the update callback of the WeatherNow Android home-screen
widget (`WeatherWidgetProvider`). When the host asks the widget to redraw a batch of
widget instances, the callback does the following for each instance, in order:

- It reads four cached weather strings from shared storage. Each one has a fixed fallback.
- It formats the current time as `HH:mm` after the label "Cập nhật lúc: ".
- It maps the cached icon code to one of the app's weather drawables. An unlisted code gets the system compass icon.
- If the app has a launch intent, it binds a tap action that opens the app in a fresh task.
- It submits the view for that instance.

Modules:

- `Wrappers` (`wrappers.dfy`): `Option`, which stands for Kotlin's nullable values.
- `WeatherIcons` (`weather_icons.dfy`): the icon table `WeatherIconResource`, written with one case per listed code. It also gives an independent reference reading of the table. That reading splits a code into its two-digit condition and its `d`/`n` time-of-day suffix. Lemmas prove that the table and the reference agree for every string.
- `UpdateTime` (`update_time.dfy`): the `HH:mm` formatting and the update-time line. A parser shows that the formatted text gives back the clock reading.
- `WidgetProvider` (`widget_provider.dfy`): the view record. `BuildView` builds one instance's view as a pure function, and four lemmas state what each part of that view shows. `OnUpdate` is a loop that returns one `(id, view)` update per widget ID, in input order. It stands in for the calls to `updateAppWidget`. The loop is proved equal to the recursive specification `Batch`, and lemmas about `Batch` state the per-ID properties. `Batch` is built on `UpdatesFor`, which takes the view builder as a function value. The induction is proved once there, for any view, and `BatchAt` and `BatchIds` apply it to `BuildView`.

The callback reads four cached keys: `weather_widget_data`, `weather_widget_location`,
`weather_widget_description` and `weather_widget_icon`.

## Model

| member | source | states |
|---|---|---|
| `WeatherIcons.WeatherIconResource` | android/app/src/main/kotlin/com/example/weather_app/WeatherWidgetProvider.kt:71-87 | The lookup is total, and it returns the system compass icon exactly when the code is not one of the 18 listed codes |
| `WeatherIcons.KnownCodeDrawables` | android/app/src/main/kotlin/com/example/weather_app/WeatherWidgetProvider.kt:72-84 | Each listed code maps to its designated drawable: 01d to clear day, 01n to clear night, 02d/02n to few clouds day/night, 03 to scattered clouds, 04 to broken clouds, 09 to shower rain, 10d/10n to rain day/night, 11 to thunderstorm, 13 to snow and 50 to mist |
| `WeatherIcons.LookupMatchesReference` | android/app/src/main/kotlin/com/example/weather_app/WeatherWidgetProvider.kt:72-85 | For every string, the table gives the same drawable as the reference reading. In that reading, a known two-digit condition followed by `d` or `n` selects the condition's day or night drawable, and anything else gets the compass |
| `WeatherIcons.DayNightVariants` | android/app/src/main/kotlin/com/example/weather_app/WeatherWidgetProvider.kt:73-85 | For any prefix, the `d` and `n` codes map to different drawables if and only if the prefix is 01, 02 or 10. Every other prefix, listed or not, maps both codes to one drawable |
| `WeatherIcons.SharedDrawablesArePairs` | android/app/src/main/kotlin/com/example/weather_app/WeatherWidgetProvider.kt:72-84 | Two different listed codes share a drawable only when they are the day and night codes of one of the prefixes 03, 04, 09, 11, 13 or 50 |
| `UpdateTime.TwoDigits` | android/app/src/main/kotlin/com/example/weather_app/WeatherWidgetProvider.kt:28-29 | A two-digit field is two decimal digits, zero-padded, whose value is the number formatted |
| `UpdateTime.FormatHHmm` | android/app/src/main/kotlin/com/example/weather_app/WeatherWidgetProvider.kt:28-29 | The time text has five characters: the hour 00-23 in two digits, `:` at index 2, and the minute 00-59 in two digits |
| `UpdateTime.FormatRoundTrip` | android/app/src/main/kotlin/com/example/weather_app/WeatherWidgetProvider.kt:28-29 | Parsing the formatted `HH:mm` text gives back the clock reading, so the format loses no information |
| `UpdateTime.UpdateTimeText` | android/app/src/main/kotlin/com/example/weather_app/WeatherWidgetProvider.kt:28-30 | The update line is the label "Cập nhật lúc: " followed by exactly the five characters of `HH:mm`, and those characters parse back to the clock reading |
| `WidgetProvider.CachedString` | android/app/src/main/kotlin/com/example/weather_app/WeatherWidgetProvider.kt:22-25 | Reading one cached key: the stored string when the key is present, the given fallback when it is absent (a stored null reads as absent). `CachedFieldsShown` states what this gives each field |
| `WidgetProvider.IconCode` | android/app/src/main/kotlin/com/example/weather_app/WeatherWidgetProvider.kt:25 | The icon code the callback resolves: the cached code, or "01d" when none is cached. `ShownIconIsLookup` and `EmptySnapshotShowsDefaults` state that "01d" shows the clear-day icon |
| `WidgetProvider.GuardedIcon` | android/app/src/main/kotlin/com/example/weather_app/WeatherWidgetProvider.kt:40-46 | The guarded icon assignment: the drawable the lookup returned, or the system compass icon when the lookup failed. `IconFallbackIsInert` states that the handler never changes the result |
| `WidgetProvider.BuildView` | android/app/src/main/kotlin/com/example/weather_app/WeatherWidgetProvider.kt:20-64 | One instance's view, assembled from the cached fields, the update-time line, the guarded icon and the optional tap action. Its contract says a tap action exists if and only if a launch intent does. `CachedFieldsShown`, `ShownIconIsLookup`, `ShownUpdateTime` and `TapActionIffLaunchIntent` state the rest |
| `WidgetProvider.CachedFieldsShown` | android/app/src/main/kotlin/com/example/weather_app/WeatherWidgetProvider.kt:22-24 | The temperature, location and description fields each show the cached value unchanged when its key is present. When the key is absent they show "--°C", "Vị trí không xác định" and "không có dữ liệu" |
| `WidgetProvider.ShownIconIsLookup` | android/app/src/main/kotlin/com/example/weather_app/WeatherWidgetProvider.kt:40-42 | The icon is the lookup of the cached icon code. With no code cached it is the clear-day icon, because the fallback code read at line 25 is "01d" |
| `WidgetProvider.ShownUpdateTime` | android/app/src/main/kotlin/com/example/weather_app/WeatherWidgetProvider.kt:28-30 | The time field is the label "Cập nhật lúc: " followed by five characters that parse back to the clock reading |
| `WidgetProvider.TapActionIffLaunchIntent` | android/app/src/main/kotlin/com/example/weather_app/WeatherWidgetProvider.kt:49-64 | A tap action is bound if and only if a launch intent exists. When it is bound it is exactly `LaunchTap`: on the widget container, request code 0, launch-intent flags NEW_TASK and CLEAR_TASK, and pending-intent flags UPDATE_CURRENT and IMMUTABLE |
| `WidgetProvider.IconFallbackIsInert` | android/app/src/main/kotlin/com/example/weather_app/WeatherWidgetProvider.kt:40-46 | The guarded icon assignment shows the lookup's drawable. The exception handler's compass icon is the same icon the lookup returns for every unlisted code, so the fallback never changes the result |
| `WidgetProvider.UpdatesFor` | android/app/src/main/kotlin/com/example/weather_app/WeatherWidgetProvider.kt:19-66 | The loop's result for any view builder: the updates for all IDs but the last, then the last ID's update. There are exactly as many updates as IDs |
| `WidgetProvider.UpdatesForAt` | android/app/src/main/kotlin/com/example/weather_app/WeatherWidgetProvider.kt:19-66 | Update i carries ID i and the view built from the i-th clock reading, proved by induction on the ID list |
| `WidgetProvider.Batch` | android/app/src/main/kotlin/com/example/weather_app/WeatherWidgetProvider.kt:19-66 | The updates of the callback's batch, whose views come from `BuildView` with the snapshot and launch-intent check fixed for the batch. A batch has exactly as many updates as there are IDs |
| `WidgetProvider.BatchAt` | android/app/src/main/kotlin/com/example/weather_app/WeatherWidgetProvider.kt:20-66 | Update i of a batch carries ID i and `BuildView` of the snapshot, the i-th clock reading and the launch-intent check |
| `WidgetProvider.BatchIds` | android/app/src/main/kotlin/com/example/weather_app/WeatherWidgetProvider.kt:19-66 | The IDs of a batch's updates are the input IDs, in input order, for either value of the launch-intent check. A view without a tap action is therefore still submitted |
| `WidgetProvider.OnUpdate` | android/app/src/main/kotlin/com/example/weather_app/WeatherWidgetProvider.kt:14-67 | The loop over the widget IDs submits exactly the updates of the batch specification `Batch` |
| `WidgetProvider.EmptySnapshotShowsDefaults` | android/app/src/main/kotlin/com/example/weather_app/WeatherWidgetProvider.kt:22-25 | With nothing cached, the fields show "--°C", "Vị trí không xác định" and "không có dữ liệu", and the icon is clear day, because the fallback code is "01d" |
| `WidgetProvider.CachedSnapshotShown` | android/app/src/main/kotlin/com/example/weather_app/WeatherWidgetProvider.kt:22-42 | With "22°C", "Hanoi", "clear" and "01d" cached, the view shows exactly those three strings, the clear-day icon and the label followed by the current `HH:mm` |

## Left out

- The Android objects `RemoteViews`, `AppWidgetManager`, `PendingIntent` and `Intent` are not modelled. The view is a record, and a submitted update is an `(id, view)` pair appended to a sequence. The layout resource and the order of the setter calls are not represented. Intent flag bit values are not modelled; the flags are a set of named values.
- `HomeWidgetPlugin.getData` and SharedPreferences I/O are replaced by a `map<string, string>` snapshot. A stored null reads the same as an absent key, so the model represents it as absence.
- A stored value of the wrong type is not modelled. `getString` throws for a non-string value, and the callback does not catch it.
- The model reads the snapshot and the launch-intent check once per batch. The source repeats both reads for each widget ID. Nothing in the loop changes either of them, but another process could write the store between iterations, and the model does not capture that.
- The wall clock (`Date()`), the time zone and `Locale.getDefault()` are not modelled. The source reads the clock once per widget ID, so `OnUpdate` takes one hour/minute reading per ID. The formatting assumes ASCII digits; a locale with a different digit set would render other characters.
- `getLaunchIntentForPackage` becomes a boolean saying whether a launch intent exists. Which activity it names is not modelled.
- The integer values of `R.drawable`, `R.id` and `R.layout` resources are generated by the Android build. `R.drawable` values become the `Drawable` enumeration, and `R.id.widget_container` becomes `ViewId.WidgetContainer`. The other `R.id` targets are the fields of `WidgetView`, and the layout is not represented.
- The try/catch around the icon lookup is modelled by its outcome only, through `GuardedIcon`, and not as an exception mechanism.
