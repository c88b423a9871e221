# send_message: the Android SMS plugin's pending-send correlator

The Android side of the `send_message` Flutter plugin (`FlutterSmsPlugin.kt`)
receives method calls from the Flutter channel and sends SMS through the
platform. Behind the glue sits a small state machine: one mutable slot,
`pendingSent`, holds the message, the recipients string and the one-shot
`Result` handle of a direct send. It waits there for the permission callback
or for the `SMS_SENT_ACTION` broadcast that answers the caller.

This project models that state machine and the rules around it:

- `recipients.dfy` (module `Recipients`): Kotlin's `phones.split(";")`, which keeps
  empty pieces, and its inverse `Join`.
- `utf8.dfy` (module `Utf8`): the byte count of `message.toByteArray()`.
- `channel.dfy` (module `Channel`): the `when (call.method)` dispatch. It covers the
  `?:` defaults of the "sendSMS" arguments and the cast failure a mistyped
  argument raises.
- `correlator.dfy` (module `Correlator`): the plugin's observable state as a value.
  The state is its `activity` flag, the `pendingSent` slot, a log of every answer
  given to a result handle, and a log of every platform call. There is one
  transition function per entry point, each stated per outcome. Lemmas cover the paths through
  the send logic, the per-recipient send plan, and the invariant over any interleaving of callbacks:
  no result handle is answered twice.
- `plugin.dfy` (module `Plugin`): class `FlutterSmsPlugin`, with the fields the
  Kotlin object updates in place. Each method updates them the way the Kotlin
  code does; `sendSMSDirect` has its loop over the numbers. Each method is proved
  to leave exactly the state the matching transition function gives, and the
  public entry points keep the invariant.
- `scenarios.dfy` (module `Scenarios`): call sequences on a fresh plugin, with the
  final answers, platform calls and slot they produce.

Platform facts are inputs, not calls. A `Platform` value is passed with every
method call: whether SEND_SMS is granted, whether an `SmsManager` is available,
whether the device has the telephony feature, and whether an exported "smsto:"
handler exists. The permission callback carries its request code, its grant
array and whether an `SmsManager` is available. The broadcast carries its result
code. Result handles are natural numbers, and each incoming call brings one the
plugin has not seen before.

Behaviour of the code that the model keeps as written:

- On a granted permission callback, `sendSMSDirect` stores the record again
  (line 170), and line 196 then empties the slot. After a successful send the
  delivery broadcast finds nothing, so that caller's result is never answered
  (`Correlator.PermissionGrantedPath`, `Scenarios.PermissionGrantedLater`).
- Without an activity, `checkSmsPermission` is false and `requestSmsPermission`
  does nothing. A direct send then stores the record and issues no request
  (`Scenarios.DirectWithoutActivity`).
- `sendSMSDirect` checks for an `SmsManager` before sending (line 154). A direct
  send with permission already granted therefore still answers `no_sms_manager`
  at once when the platform has none.
- A second direct send overwrites a waiting record. The first caller is never
  answered (`Scenarios.OverwrittenWhileWaiting`).
- Only the single-part send carries the sent-broadcast intent (line 166). The
  multipart send passes `null` (line 164), so only single-part sends can lead to
  the broadcast that answers the caller.

## Model

| member | source | states |
|---|---|---|
| `Recipients.Split` | android/src/main/kotlin/com/example/send_message/FlutterSmsPlugin.kt:158 | `phones.split(";")` gives one more piece than the string has separators, and no piece contains the separator. |
| `Recipients.JoinSplit` | android/src/main/kotlin/com/example/send_message/FlutterSmsPlugin.kt:158 | Joining the pieces with ";" gives back the recipients string, so splitting loses no character. |
| `Recipients.SplitJoin` | android/src/main/kotlin/com/example/send_message/FlutterSmsPlugin.kt:158 | Splitting a join of separator-free pieces gives back the same pieces, empty ones included (this is the inverse direction). |
| `Utf8.Size` | android/src/main/kotlin/com/example/send_message/FlutterSmsPlugin.kt:161-162 | The UTF-8 byte count of a string lies between its length and four times its length. |
| `Utf8.SizeAppend` | android/src/main/kotlin/com/example/send_message/FlutterSmsPlugin.kt:162 | The byte count of a concatenation is the sum of the two byte counts. |
| `Utf8.SizeAscii` | android/src/main/kotlin/com/example/send_message/FlutterSmsPlugin.kt:162 | The byte count equals the character count exactly when the text is ASCII. |
| `Channel.Dispatch` | android/src/main/kotlin/com/example/send_message/FlutterSmsPlugin.kt:86-98 | "canSendSMS" and unknown names are routed as such, in both directions. "sendSMS" takes its arguments from the map, defaulting to "", "" and false when absent or null. A non-string message or recipients, or a non-boolean sendDirect, raises before anything else happens, and the first offending key in reading order is reported. |
| `Correlator.CanSendSms` | android/src/main/kotlin/com/example/send_message/FlutterSmsPlugin.kt:120-130 | `canSendSMS` is true exactly when an activity is attached, the device has the telephony feature and the resolved SMS handler is exported. |
| `Correlator.SendPlanShape` | android/src/main/kotlin/com/example/send_message/FlutterSmsPlugin.kt:160-168 | There is one send per number, in order, to that number, with the whole message. A send is multipart exactly when the message's UTF-8 size exceeds 80 bytes. |
| `Correlator.RecipientsPlan` | android/src/main/kotlin/com/example/send_message/FlutterSmsPlugin.kt:158-168 | The sends reach every piece of the recipients string and nothing else: their count is the separator count plus one, and their destinations rejoined give the recipients string. |
| `Correlator.MultipartThreshold` | android/src/main/kotlin/com/example/send_message/FlutterSmsPlugin.kt:162-167 | More than 80 characters always means multipart, and at most 20 always means single sends. For ASCII text the cut is exactly 80 characters. |
| `Correlator.AfterMethodCall` | android/src/main/kotlin/com/example/send_message/FlutterSmsPlugin.kt:86-98 | Dispatch itself changes neither the slot nor the platform-call log unless the call is "sendSMS". "canSendSMS" answers its handle once with the boolean `canSendSMS` computes, any other name answers `notImplemented` once, and a mistyped "sendSMS" argument leaves the state unchanged. |
| `Correlator.DialogPath` | android/src/main/kotlin/com/example/send_message/FlutterSmsPlugin.kt:173-185 | With `sendDirect` false the result is answered exactly once: "SMS Sent!" after launching the SMS activity when an activity is attached, `no_activity` otherwise. The slot is untouched. |
| `Correlator.PermissionMissingPath` | android/src/main/kotlin/com/example/send_message/FlutterSmsPlugin.kt:132-139 | A direct send without permission replaces the slot with the new record and answers nothing. It issues one permission request, or none without an activity. |
| `Correlator.DirectSendOutcome` | android/src/main/kotlin/com/example/send_message/FlutterSmsPlugin.kt:145-171 | Without an activity `sendSMSDirect` answers `no_activity`; without an SmsManager it answers `no_sms_manager`. In those cases there are no sends and no slot change. Otherwise it answers nothing, sends once to each recipient piece in order (multipart exactly above 80 bytes) and stores the record. |
| `Correlator.AfterPermissionsResult` | android/src/main/kotlin/com/example/send_message/FlutterSmsPlugin.kt:187-208 | A request code other than 206 changes nothing. With 206 the slot is always empty afterwards. With an empty slot the callback has no effect. |
| `Correlator.PermissionGrantedPath` | android/src/main/kotlin/com/example/send_message/FlutterSmsPlugin.kt:193-198 | A grant runs `sendSMSDirect` on the pending record and then leaves the slot empty. When the sends were made, nothing is answered and any later broadcast is a no-op. |
| `Correlator.PermissionDeniedPath` | android/src/main/kotlin/com/example/send_message/FlutterSmsPlugin.kt:199-205 | A denial or an empty grant array answers the pending result `permission_denied` and clears the slot. Nothing else changes. |
| `Correlator.AfterReceive` | android/src/main/kotlin/com/example/send_message/FlutterSmsPlugin.kt:210-226 | A broadcast always leaves the slot empty. A waiting record is answered "SMS Sent!" on RESULT_OK and `sms_failed` otherwise. An empty slot makes the broadcast a no-op. |
| `Correlator.DuplicateBroadcast` | android/src/main/kotlin/com/example/send_message/FlutterSmsPlugin.kt:210-226 | A second broadcast answers nothing. |
| `Correlator.StepKeeps` | android/src/main/kotlin/com/example/send_message/FlutterSmsPlugin.kt:86-226 | Every entry point preserves the invariant. Each answered handle was handed in, none is answered twice, and the pending record never holds an answered handle. |
| `Correlator.RunKeeps` | android/src/main/kotlin/com/example/send_message/FlutterSmsPlugin.kt:49-226 | Over any interleaving of calls, permission callbacks, broadcasts and activity changes with fresh handles, no result handle is answered twice. |
| `Correlator.RunExtendsLog` | android/src/main/kotlin/com/example/send_message/FlutterSmsPlugin.kt:86-226 | Answers are never withdrawn or changed: the log only grows, by at most one answer per event. |
| `Correlator.ClearAfterResolve` | android/src/main/kotlin/com/example/send_message/FlutterSmsPlugin.kt:194-223 | An event that answers the pending record's handle also empties the slot. |
| `Plugin.FlutterSmsPlugin.constructor` | android/src/main/kotlin/com/example/send_message/FlutterSmsPlugin.kt:42-49 | A new plugin has no activity, an empty slot, empty logs, and satisfies the invariant. |
| `Plugin.FlutterSmsPlugin.OnAttachedToActivity` | android/src/main/kotlin/com/example/send_message/FlutterSmsPlugin.kt:51-55 | Sets the activity flag and changes nothing else. |
| `Plugin.FlutterSmsPlugin.OnReattachedToActivityForConfigChanges` | android/src/main/kotlin/com/example/send_message/FlutterSmsPlugin.kt:65-67 | Sets the activity flag and changes nothing else. |
| `Plugin.FlutterSmsPlugin.OnDetachedFromActivity` | android/src/main/kotlin/com/example/send_message/FlutterSmsPlugin.kt:57-59 | Clears the activity flag and changes nothing else. |
| `Plugin.FlutterSmsPlugin.OnDetachedFromActivityForConfigChanges` | android/src/main/kotlin/com/example/send_message/FlutterSmsPlugin.kt:61-63 | Clears the activity flag and changes nothing else. |
| `Plugin.FlutterSmsPlugin.OnMethodCall` | android/src/main/kotlin/com/example/send_message/FlutterSmsPlugin.kt:86-98 | The new state is the dispatch transition applied to the old one. The new handle is recorded and the invariant kept. |
| `Plugin.FlutterSmsPlugin.SendSms` | android/src/main/kotlin/com/example/send_message/FlutterSmsPlugin.kt:132-143 | The new state is the `sendSMS` transition of the old one. |
| `Plugin.FlutterSmsPlugin.RequestSmsPermission` | android/src/main/kotlin/com/example/send_message/FlutterSmsPlugin.kt:109-117 | Logs one SEND_SMS request with code 206 when an activity is attached, and nothing otherwise. |
| `Plugin.FlutterSmsPlugin.SendSmsDirect` | android/src/main/kotlin/com/example/send_message/FlutterSmsPlugin.kt:145-171 | Its loop over the numbers appends exactly the send plan, and the new state is the `sendSMSDirect` transition of the old one. |
| `Plugin.FlutterSmsPlugin.SendSmsDialog` | android/src/main/kotlin/com/example/send_message/FlutterSmsPlugin.kt:173-185 | The new state is the dialog transition of the old one. |
| `Plugin.FlutterSmsPlugin.OnRequestPermissionsResult` | android/src/main/kotlin/com/example/send_message/FlutterSmsPlugin.kt:187-208 | Returns true exactly for request code 206. The new state is the permission-callback transition, and the invariant is kept. |
| `Plugin.FlutterSmsPlugin.OnReceive` | android/src/main/kotlin/com/example/send_message/FlutterSmsPlugin.kt:210-226 | The new state is the broadcast transition, and the invariant is kept. |
| `Scenarios.PermissionGrantedLater` | android/src/main/kotlin/com/example/send_message/FlutterSmsPlugin.kt:134-139 | Permission missing, then granted, then delivered: one request and one send are made, the slot ends empty, and the caller is never answered. |
| `Scenarios.GrantedThenDeliveryFailed` | android/src/main/kotlin/com/example/send_message/FlutterSmsPlugin.kt:219-223 | Permission granted: the text is sent at once with no request, and a failed broadcast answers `sms_failed`. |
| `Scenarios.DeliveredTwice` | android/src/main/kotlin/com/example/send_message/FlutterSmsPlugin.kt:212-216 | A delivered broadcast answers "SMS Sent!" once, and a duplicate answers nothing. |
| `Scenarios.PermissionRefused` | android/src/main/kotlin/com/example/send_message/FlutterSmsPlugin.kt:199-205 | An empty grant array answers `permission_denied`, and a later broadcast is a no-op. |
| `Scenarios.OverwrittenWhileWaiting` | android/src/main/kotlin/com/example/send_message/FlutterSmsPlugin.kt:137 | A second waiting send replaces the first: only the second is sent after the grant, and nobody is answered. |
| `Scenarios.DirectWithoutActivity` | android/src/main/kotlin/com/example/send_message/FlutterSmsPlugin.kt:100-117 | Without an activity a direct send stores the record, requests nothing and answers nothing. |
| `Scenarios.LongMessageMultipart` | android/src/main/kotlin/com/example/send_message/FlutterSmsPlugin.kt:162-164 | An 81-character message to "1;2" goes out as two multipart sends, and the record is stored. |
| `Scenarios.EmptyRecipientKept` | android/src/main/kotlin/com/example/send_message/FlutterSmsPlugin.kt:158-168 | "1;;2" gives three single sends, the middle one to the empty number. |
| `Scenarios.DialogAndOtherMethods` | android/src/main/kotlin/com/example/send_message/FlutterSmsPlugin.kt:86-98 | Dialog send without an activity gives `no_activity`; with one it launches "smsto:12345" and answers "SMS Sent!". "canSendSMS" answers true, and an unknown name is not implemented. The slot stays empty throughout. |

## Left out

- Platform calls are logged actions, not executed: `ActivityCompat.requestPermissions`, `startActivityForResult`, `sendTextMessage` and `sendMultipartTextMessage`. They are foreign APIs.
- The content of `SmsManager.divideMessage`, the `PendingIntent` object and the `Intent` extras beyond the URI and message body are left out. They belong to the platform.
- `checkSelfPermission`, `getSystemService`, `hasSystemFeature` and `resolveActivityInfo` are answers carried by `Platform`, because they are queries of the platform.
- `registerReceiver` and `addRequestPermissionsResultListener` in `onAttachedToActivity` are left out. Channel setup and teardown (`onAttachedToEngine`, `onDetachedFromEngine`, `setupCallbackChannels`, `teardown`) are left out too. This is host wiring; broadcasts and callbacks are modelled as arriving at any time.
- The `permissions` array of `onRequestPermissionsResult` is not modelled, because the code never reads it.
- Platform sends are modelled as always returning normally, so the platform-call log records attempts. An exception the platform raises inside a send (for example on an empty destination or body) is not modelled; it is platform behaviour outside this file.
- The `Log.d` call at line 161 is left out: it is logging only.
- Concurrency is not modelled: callbacks are taken one at a time, in any order.
- Argument values that are not a map, and the error reply the framework sends for an exception escaping `onMethodCall`, are not modelled. Both are framework behaviour.
- Utf8.Size: measures strings of Unicode scalar values. A Kotlin string holding an unpaired surrogate cannot be written in the model; Kotlin encodes such a surrogate to one byte.
