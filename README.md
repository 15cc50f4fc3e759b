# Notification bridge of the modul6 Android host activity

This project models the two pieces of logic in `MainActivity`, the Android activity
that hosts the Flutter app and bridges push-notification intents to the Flutter method
channel `com.mobile.modul6/notification`:

- **Payload extraction** (`getNotificationDataFromIntent`, module `Extraction`). A null
  intent or an intent without extras gives null. Otherwise a loop over the extras' keys
  collects every non-null value as text. Then the keys the push transport reserves are
  filtered out: keys starting with `google.`, `gcm.` or `from`, and the key
  `collapse_key`. Matching is case-sensitive. An empty result becomes null.
  Extras values are opaque, so their `toString()` is the parameter `show`, and a null
  value is `None`.
- **One-shot launch notification and channel dispatch** (class `Activity.MainActivity`).
  `onCreate` sets the field `initialNotificationData` to the extraction of the launch intent.
  The channel request `getInitialNotification` returns the held value and clears it.
  Any other request is answered "not implemented". `onNewIntent` leaves the field alone.
  It pushes an `onNotificationTapped` event with the extracted payload only when the
  extraction is non-null. Pushed events are appended to the field `outbox`.

The object invariant `MainActivity.Valid` says that every payload Flutter can be handed is
non-empty and free of reserved keys. This covers both the held payload and every pushed
one. Every method keeps the invariant.

`onCreate` assigns the extraction result unconditionally, so a null extraction also sets
the field to null. A fresh activity already holds null, so only a repeated `OnCreate` can
tell the difference.

Files: `wrappers.dfy` (the `Option` type for Kotlin's nullable types), `extraction.dfy`,
`activity.dfy`.

## Model

| member | source | states |
|---|---|---|
| `Extraction.CollectExtras` | android/app/src/main/kotlin/com/mobile/modul6/MainActivity.kt:62-70 | The keys of the collected map are exactly the extras keys whose value is non-null. Each such key maps to the value's text. |
| `Extraction.WithoutReserved` | android/app/src/main/kotlin/com/mobile/modul6/MainActivity.kt:72-77 | The filter keeps a key of its input if and only if the key is not reserved. The values of kept keys are unchanged, and no key is added. |
| `Extraction.NullIfEmpty` | android/app/src/main/kotlin/com/mobile/modul6/MainActivity.kt:79-85 | The result is null exactly when the filtered map is empty. Otherwise it is that map. |
| `Extraction.GetNotificationDataFromIntent` | android/app/src/main/kotlin/com/mobile/modul6/MainActivity.kt:50-86 | The imperative extraction (null checks, collecting loop, filter, empty-to-null) returns the same value as the specification function `NotificationData`. |
| `Extraction.NullWithoutIntentOrExtras` | android/app/src/main/kotlin/com/mobile/modul6/MainActivity.kt:51-60 | A null intent, or an intent whose extras are null, gives a null result. |
| `Extraction.KeysExactlySurviving` | android/app/src/main/kotlin/com/mobile/modul6/MainActivity.kt:64-85 | The result keys are exactly the extras keys that have a non-null value and are not reserved. The result is null exactly when no such key exists. |
| `Extraction.ValuesAreStringified` | android/app/src/main/kotlin/com/mobile/modul6/MainActivity.kt:62-70 | Every key of a non-null result comes from the extras with a non-null value. Its value is that value's text. |
| `Extraction.DeliverableResult` | android/app/src/main/kotlin/com/mobile/modul6/MainActivity.kt:72-85 | A non-null result is never an empty map and holds no reserved key. |
| `Extraction.OnlyReservedYieldsNull` | android/app/src/main/kotlin/com/mobile/modul6/MainActivity.kt:72-85 | Extras made only of reserved keys give null, whatever their values. |
| `Extraction.ReservedKeyExamples` | android/app/src/main/kotlin/com/mobile/modul6/MainActivity.kt:72-77 | `from`, `from_user`, `google.message_id`, `gcm.n.e` and `collapse_key` are reserved. Prefix matching also catches longer keys. |
| `Extraction.OrdinaryKeyExamples` | android/app/src/main/kotlin/com/mobile/modul6/MainActivity.kt:72-77 | `From`, `Google.x`, `google`, `collapse_key2`, `title` and `order_id` are not reserved. Matching is case-sensitive, and `collapse_key` is an exact match. |
| `Extraction.MixedBundleExample` | android/app/src/main/kotlin/com/mobile/modul6/MainActivity.kt:62-85 | Extras `title`, `google.delivered_priority`, `collapse_key` and `order_id` give exactly `{title: Hi, order_id: 42}`. |
| `Extraction.TransportOnlyBundleExample` | android/app/src/main/kotlin/com/mobile/modul6/MainActivity.kt:72-85 | Extras holding only `gcm.message_id` and `from` give null. |
| `Activity.MainActivity.constructor` | android/app/src/main/kotlin/com/mobile/modul6/MainActivity.kt:11 | A new activity holds no notification and has pushed no event. |
| `Activity.MainActivity.OnCreate` | android/app/src/main/kotlin/com/mobile/modul6/MainActivity.kt:13-20 | The held value becomes the extraction of the launch intent, null included. No event is pushed, and the invariant is kept. |
| `Activity.MainActivity.HandleMethodCall` | android/app/src/main/kotlin/com/mobile/modul6/MainActivity.kt:25-34 | `getInitialNotification` answers with the held value and leaves the field null. Any other name answers "not implemented" and leaves the field unchanged. No event is pushed. A payload handed to Flutter is non-empty and holds no reserved key. |
| `Activity.MainActivity.OnNewIntent` | android/app/src/main/kotlin/com/mobile/modul6/MainActivity.kt:37-48 | The held value never changes. Exactly one `onNotificationTapped` event carrying the extracted payload is appended when extraction is non-null. Otherwise nothing is appended. |
| `Activity.DeliveredOnce` | android/app/src/main/kotlin/com/mobile/modul6/MainActivity.kt:13-48 | After launch and a later tap, the first request returns the launch payload and an immediately repeated request returns null. The tap pushes exactly its own payload and does not replace the held one. |
| `Activity.OtherRequestsKeepHeldValue` | android/app/src/main/kotlin/com/mobile/modul6/MainActivity.kt:26-32 | Any other request name is answered "not implemented". A following `getInitialNotification` still returns the launch payload. |
| `Activity.TransportOnlyLaunch` | android/app/src/main/kotlin/com/mobile/modul6/MainActivity.kt:13-48 | When launch and relaunch extras hold only reserved keys, nothing is held and nothing is pushed. |
| `Activity.NoExtrasNoEffect` | android/app/src/main/kotlin/com/mobile/modul6/MainActivity.kt:13-60 | When launch and relaunch intents have no extras, the launch request returns null and nothing is pushed. |

## Left out

- Framework plumbing: `FlutterActivity`, the `super.*` calls, `setIntent`, the construction of `MethodChannel` and the `BinaryMessenger`. These are foreign calls. The constant `Channel` records the channel name only.
- The case where `flutterEngine` is null in `onNewIntent`: the Kotlin code then drops the event silently. The model always has an engine present, so `OnNewIntent` appends the event whenever extraction is non-null.
- `android.util.Log.d` logging: it is output only and has no effect on any result.
- `Object.toString()` of arbitrary bundle values: it is the caller-supplied function `show`.
- The order of entries in Kotlin's insertion-ordered maps and the iteration order of `keySet()`: payloads are unordered Dafny maps. Keys are unique, so no value depends on the order.
- The activity lifecycle and threading, such as recreation and the order of `onCreate` against `configureFlutterEngine`. All entry points are taken to run one after another on one thread.
- Delivery of `invokeMethod`: it is fire-and-forget, so an event counts as sent once it is in `outbox`.
