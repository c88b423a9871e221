/** The pending-send correlator of FlutterSmsPlugin.kt as values: the plugin's
    observable state, one function per entry point giving the state after it,
    and the properties those transitions keep. The class in plugin.dfy runs the
    same steps imperatively and is proved to produce exactly these states. */
module Correlator {
  import opened Recipients
  import opened Utf8
  import Channel

  datatype Option<T> = None | Some(value: T)

  /** The identity of one `MethodChannel.Result`: the framework creates a new
      one for every incoming call, and it may be answered once. */
  type Handle = nat

  /** `PendingSent` (lines 30-40); its fields are never reassigned after
      construction, so it is a value here. */
  datatype PendingSent = PendingSent(message: string, recipients: string, result: Handle)

  /** The error codes passed to `result.error`, with their messages. */
  datatype ErrorCode = NoActivity | NoSmsManager | PermissionDenied | SmsFailed
  {
    function Code(): string
    {
      match this
      case NoActivity => "no_activity"
      case NoSmsManager => "no_sms_manager"
      case PermissionDenied => "permission_denied"
      case SmsFailed => "sms_failed"
    }

    function Message(): string
    {
      match this
      case NoActivity => "Activity is not available"
      case NoSmsManager => "SmsManager is not available"
      case PermissionDenied => "Permission denied"
      case SmsFailed => "SMS failed"
    }
  }

  datatype Payload = TextPayload(text: string) | BoolPayload(flag: bool)

  /** How a result handle is answered: `success`, `error` or `notImplemented`. */
  datatype Reply = Success(payload: Payload) | Error(error: ErrorCode) | Unimplemented

  /** One answer given to one result handle. */
  datatype Resolution = Resolution(handle: Handle, reply: Reply)

  /** The platform calls the plugin makes. Only `SendText` carries the
      sent-broadcast intent (line 166); the multipart send passes none (line 164). */
  datatype Action =
    | RequestPermissions(permission: string, requestCode: int)
    | StartActivityForResult(uri: string, smsBody: string, requestCode: int)
    | SendText(destination: string, text: string)
    | SendMultipartText(destination: string, text: string)
  {
    predicate IsSend() { SendText? || SendMultipartText? }
  }

  /** What `intent.resolveActivityInfo` finds for "smsto:". */
  datatype SmsHandler = NoHandler | Handler(exported: bool)

  /** What the platform answers at the moment of a call: whether SEND_SMS is
      granted, whether `getSystemService(SmsManager)` returns a manager, whether
      the device has the telephony feature, and the SMS handler activity. */
  datatype Platform = Platform(permissionGranted: bool, smsManagerAvailable: bool,
                               hasTelephony: bool, smsHandler: SmsHandler)

  /** The plugin's state: whether an activity is attached (`activity != null`),
      the `pendingSent` slot, and the logs of answers given and platform calls made. */
  datatype State = State(activityAttached: bool, pendingSent: Option<PendingSent>,
                         resolutions: seq<Resolution>, actions: seq<Action>)

  const REQUEST_CODE_SEND_SMS := 205
  const REQUEST_CODE_PERMISSION := 206
  /** `PackageManager.PERMISSION_GRANTED` */
  const PERMISSION_GRANTED := 0
  /** `Activity.RESULT_OK` */
  const RESULT_OK := -1
  const SEND_SMS_PERMISSION := "android.permission.SEND_SMS"
  const SMS_SENT := "SMS Sent!"
  const SMS_URI_PREFIX := "smsto:"
  const RECIPIENT_SEPARATOR := ';'
  /** Messages whose UTF-8 encoding is longer than this go out as multipart. */
  const MULTIPART_THRESHOLD := 80

  // ---------------------------------------------------------------------------
  // The per-recipient send plan of sendSMSDirect (lines 158-168)

  /** The send issued for one number. */
  function SendFor(number: string, message: string): Action
  {
    if Size(message) > MULTIPART_THRESHOLD then SendMultipartText(number, message)
    else SendText(number, message)
  }

  /** The sends issued for the numbers, in order. */
  function SendPlan(numbers: seq<string>, message: string): seq<Action>
  {
    if numbers == [] then [] else [SendFor(numbers[0], message)] + SendPlan(numbers[1..], message)
  }

  /** The numbers the sends in `plan` go to, in order. */
  function Destinations(plan: seq<Action>): seq<string>
  {
    if plan == [] then []
    else (if plan[0].IsSend() then [plan[0].destination] else []) + Destinations(plan[1..])
  }

  lemma {:induction false} SendPlanAppend(numbers: seq<string>, number: string, message: string)
    ensures SendPlan(numbers + [number], message) == SendPlan(numbers, message) + [SendFor(number, message)]
  {
    if numbers != [] {
      assert (numbers + [number])[1..] == numbers[1..] + [number];
      SendPlanAppend(numbers[1..], number, message);
    } else {
      assert numbers + [number] == [number];
    }
  }

  /** One send per number, to that number, carrying the whole message, and
      multipart exactly when the message's UTF-8 size exceeds 80 bytes. */
  lemma {:induction false} SendPlanShape(numbers: seq<string>, message: string)
    ensures |SendPlan(numbers, message)| == |numbers|
    ensures forall k :: 0 <= k < |numbers| ==>
              SendPlan(numbers, message)[k].IsSend() &&
              SendPlan(numbers, message)[k].destination == numbers[k] &&
              SendPlan(numbers, message)[k].text == message &&
              (SendPlan(numbers, message)[k].SendMultipartText? <==> Size(message) > MULTIPART_THRESHOLD)
    ensures Destinations(SendPlan(numbers, message)) == numbers
  {
    if numbers != [] {
      SendPlanShape(numbers[1..], message);
      var plan := SendPlan(numbers, message);
      assert plan[1..] == SendPlan(numbers[1..], message);
      forall k | 0 <= k < |numbers|
        ensures plan[k].IsSend() && plan[k].destination == numbers[k] && plan[k].text == message
        ensures plan[k].SendMultipartText? <==> Size(message) > MULTIPART_THRESHOLD
      {
        if k > 0 {
          assert plan[k] == SendPlan(numbers[1..], message)[k - 1];
        }
      }
      assert numbers == [numbers[0]] + numbers[1..];
    }
  }

  /** The sends for a recipients string reach every piece of
      `phones.split(";")`, empty pieces included, and nothing else: there is
      one more send than the string has separators, and the destinations,
      joined with ";" again, give back the recipients string. */
  lemma RecipientsPlan(phones: string, message: string)
    ensures |SendPlan(Split(phones, RECIPIENT_SEPARATOR), message)| == Occurrences(phones, RECIPIENT_SEPARATOR) + 1
    ensures forall k :: 0 <= k < |SendPlan(Split(phones, RECIPIENT_SEPARATOR), message)| ==>
              SendPlan(Split(phones, RECIPIENT_SEPARATOR), message)[k].IsSend()
    ensures Join(Destinations(SendPlan(Split(phones, RECIPIENT_SEPARATOR), message)), RECIPIENT_SEPARATOR) == phones
  {
    SendPlanShape(Split(phones, RECIPIENT_SEPARATOR), message);
    JoinSplit(phones, RECIPIENT_SEPARATOR);
  }

  /** Where the 80-byte threshold falls in characters: more than 80 characters
      always means multipart, at most 20 always means single sends, and for
      ASCII text the threshold is exactly 80 characters. */
  lemma MultipartThreshold(number: string, message: string)
    ensures |message| > MULTIPART_THRESHOLD ==> SendFor(number, message).SendMultipartText?
    ensures |message| * 4 <= MULTIPART_THRESHOLD ==> SendFor(number, message).SendText?
    ensures IsAscii(message) ==> (SendFor(number, message).SendMultipartText? <==> |message| > MULTIPART_THRESHOLD)
  {
    SizeAscii(message);
  }

  // ---------------------------------------------------------------------------
  // Transitions, one per entry point

  /** `result.success(…)` / `result.error(…)` / `result.notImplemented()` on `h`. */
  function Resolve(s: State, h: Handle, reply: Reply): State
  {
    s.(resolutions := s.resolutions + [Resolution(h, reply)])
  }

  /** `canSendSMS` (lines 120-130): an attached activity, the telephony
      feature, and an exported activity that handles "smsto:". */
  function CanSendSms(activityAttached: bool, platform: Platform): (ok: bool)
    ensures ok <==> activityAttached && platform.hasTelephony && platform.smsHandler == Handler(true)
  {
    activityAttached && platform.hasTelephony &&
    match platform.smsHandler
    case NoHandler => false
    case Handler(exported) => exported
  }

  /** `sendSMSDirect` (lines 145-171). */
  function AfterSendDirect(s: State, h: Handle, phones: string, message: string, smsManagerAvailable: bool): State
  {
    if !s.activityAttached then Resolve(s, h, Error(NoActivity))
    else if !smsManagerAvailable then Resolve(s, h, Error(NoSmsManager))
    else s.(actions := s.actions + SendPlan(Split(phones, RECIPIENT_SEPARATOR), message),
             pendingSent := Some(PendingSent(message, phones, h)))
  }

  /** `sendSMSDialog` (lines 173-185). */
  function AfterSendDialog(s: State, h: Handle, phones: string, message: string): State
  {
    if !s.activityAttached then Resolve(s, h, Error(NoActivity))
    else
      var launched := s.(actions := s.actions + [StartActivityForResult(SMS_URI_PREFIX + phones, message, REQUEST_CODE_SEND_SMS)]);
      Resolve(launched, h, Success(TextPayload(SMS_SENT)))
  }

  /** `sendSMS` (lines 132-143). `checkSmsPermission` is false without an
      activity, and `requestSmsPermission` then does nothing. */
  function AfterSendSms(s: State, h: Handle, phones: string, message: string, sendDirect: bool, platform: Platform): State
  {
    if !sendDirect then AfterSendDialog(s, h, phones, message)
    else if s.activityAttached && platform.permissionGranted then
      AfterSendDirect(s, h, phones, message, platform.smsManagerAvailable)
    else
      var stored := s.(pendingSent := Some(PendingSent(message, phones, h)));
      if s.activityAttached then
        stored.(actions := s.actions + [RequestPermissions(SEND_SMS_PERMISSION, REQUEST_CODE_PERMISSION)])
      else stored
  }

  /** `onMethodCall` (lines 86-98). */
  function AfterMethodCall(s: State, name: string, args: map<string, Channel.Arg>, h: Handle, platform: Platform): (r: State)
    ensures r.activityAttached == s.activityAttached
    ensures !Channel.Dispatch(name, args).SendSms? ==> r.pendingSent == s.pendingSent && r.actions == s.actions
    ensures Channel.Dispatch(name, args).CanSendSms? ==>
              r == Resolve(s, h, Success(BoolPayload(CanSendSms(s.activityAttached, platform))))
    ensures Channel.Dispatch(name, args).NotImplemented? ==> r == Resolve(s, h, Unimplemented)
    ensures Channel.Dispatch(name, args).ArgumentTypeError? ==> r == s
  {
    match Channel.Dispatch(name, args)
    case SendSms(message, recipients, sendDirect) => AfterSendSms(s, h, recipients, message, sendDirect, platform)
    case CanSendSms => Resolve(s, h, Success(BoolPayload(CanSendSms(s.activityAttached, platform))))
    case NotImplemented => Resolve(s, h, Unimplemented)
    case ArgumentTypeError(_) => s
  }

  /** Whether `onRequestPermissionsResult` reports the callback as handled. */
  function Handled(requestCode: int): bool
  {
    requestCode == REQUEST_CODE_PERMISSION
  }

  /** `onRequestPermissionsResult` (lines 187-208). On a grant the record is
      passed to `sendSMSDirect`, which stores it again, and line 196 then
      empties the slot. */
  function AfterPermissionsResult(s: State, requestCode: int, grantResults: seq<int>, smsManagerAvailable: bool): (r: State)
    ensures !Handled(requestCode) ==> r == s
    ensures Handled(requestCode) ==> r.pendingSent.None?
    ensures s.pendingSent.None? ==> r == s
    ensures r.activityAttached == s.activityAttached
  {
    if !Handled(requestCode) then s
    else if |grantResults| > 0 && grantResults[0] == PERMISSION_GRANTED then
      match s.pendingSent
      case None => s
      case Some(p) => AfterSendDirect(s, p.result, p.recipients, p.message, smsManagerAvailable).(pendingSent := None)
    else
      match s.pendingSent
      case None => s
      case Some(p) => Resolve(s, p.result, Error(PermissionDenied)).(pendingSent := None)
  }

  /** `onReceive` (lines 210-226), for the SMS_SENT_ACTION broadcast. */
  function AfterReceive(s: State, resultCode: int): (r: State)
    ensures r.pendingSent.None?
    ensures r.activityAttached == s.activityAttached && r.actions == s.actions
    ensures s.pendingSent.None? ==> r == s
    ensures s.pendingSent.Some? ==>
              r.resolutions == s.resolutions +
                [Resolution(s.pendingSent.value.result,
                            if resultCode == RESULT_OK then Success(TextPayload(SMS_SENT)) else Error(SmsFailed))]
  {
    match s.pendingSent
    case None => s
    case Some(p) =>
      var reply := if resultCode == RESULT_OK then Success(TextPayload(SMS_SENT)) else Error(SmsFailed);
      Resolve(s, p.result, reply).(pendingSent := None)
  }

  // ---------------------------------------------------------------------------
  // What each entry point does, stated about the whole call

  /** The dialog path (`sendDirect` false): exactly one answer for `h`,
      "SMS Sent!" with an attached activity and `no_activity` without; the
      slot is left as it was. */
  lemma DialogPath(s: State, name: string, args: map<string, Channel.Arg>, h: Handle, platform: Platform)
    requires Channel.Dispatch(name, args).SendSms? && !Channel.Dispatch(name, args).sendDirect
    ensures AfterMethodCall(s, name, args, h, platform).pendingSent == s.pendingSent
    ensures AfterMethodCall(s, name, args, h, platform).resolutions ==
              s.resolutions + [Resolution(h, if s.activityAttached then Success(TextPayload(SMS_SENT)) else Error(NoActivity))]
    ensures s.activityAttached ==>
              AfterMethodCall(s, name, args, h, platform).actions ==
                s.actions + [StartActivityForResult(SMS_URI_PREFIX + Channel.Dispatch(name, args).recipients,
                                                    Channel.Dispatch(name, args).message, REQUEST_CODE_SEND_SMS)]
    ensures !s.activityAttached ==> AfterMethodCall(s, name, args, h, platform).actions == s.actions
  {
  }

  /** The direct path without permission: the record replaces whatever was
      pending, a permission request is issued when an activity is attached,
      and nothing is answered yet. */
  lemma PermissionMissingPath(s: State, name: string, args: map<string, Channel.Arg>, h: Handle, platform: Platform)
    requires Channel.Dispatch(name, args).SendSms? && Channel.Dispatch(name, args).sendDirect
    requires !(s.activityAttached && platform.permissionGranted)
    ensures AfterMethodCall(s, name, args, h, platform).pendingSent ==
              Some(PendingSent(Channel.Dispatch(name, args).message, Channel.Dispatch(name, args).recipients, h))
    ensures AfterMethodCall(s, name, args, h, platform).resolutions == s.resolutions
    ensures AfterMethodCall(s, name, args, h, platform).actions ==
              s.actions + (if s.activityAttached then [RequestPermissions(SEND_SMS_PERMISSION, REQUEST_CODE_PERMISSION)] else [])
  {
  }

  /** `sendSMSDirect`: with no activity or no SmsManager it answers `h` with
      the matching error and neither sends nor touches the slot; otherwise it
      answers nothing, sends once to every piece of the recipients string in
      order (multipart exactly above 80 UTF-8 bytes) and stores the record. */
  lemma DirectSendOutcome(s: State, h: Handle, phones: string, message: string, smsManagerAvailable: bool)
    ensures var r := AfterSendDirect(s, h, phones, message, smsManagerAvailable);
            r.activityAttached == s.activityAttached &&
            (!s.activityAttached ==>
               r.resolutions == s.resolutions + [Resolution(h, Error(NoActivity))] &&
               r.actions == s.actions && r.pendingSent == s.pendingSent) &&
            (s.activityAttached && !smsManagerAvailable ==>
               r.resolutions == s.resolutions + [Resolution(h, Error(NoSmsManager))] &&
               r.actions == s.actions && r.pendingSent == s.pendingSent)
    ensures var r := AfterSendDirect(s, h, phones, message, smsManagerAvailable);
            s.activityAttached && smsManagerAvailable ==>
              r.resolutions == s.resolutions &&
              r.pendingSent == Some(PendingSent(message, phones, h)) &&
              |r.actions| == |s.actions| + Occurrences(phones, RECIPIENT_SEPARATOR) + 1 &&
              r.actions[..|s.actions|] == s.actions &&
              (forall k :: |s.actions| <= k < |r.actions| ==>
                 r.actions[k].IsSend() && r.actions[k].text == message &&
                 (r.actions[k].SendMultipartText? <==> Size(message) > MULTIPART_THRESHOLD)) &&
              Join(Destinations(r.actions[|s.actions|..]), RECIPIENT_SEPARATOR) == phones
  {
    if s.activityAttached && smsManagerAvailable {
      var plan := SendPlan(Split(phones, RECIPIENT_SEPARATOR), message);
      var r := AfterSendDirect(s, h, phones, message, smsManagerAvailable);
      RecipientsPlan(phones, message);
      SendPlanShape(Split(phones, RECIPIENT_SEPARATOR), message);
      assert r.actions == s.actions + plan;
      assert r.actions[|s.actions|..] == plan;
      forall k | |s.actions| <= k < |r.actions|
        ensures r.actions[k].IsSend() && r.actions[k].text == message
        ensures r.actions[k].SendMultipartText? <==> Size(message) > MULTIPART_THRESHOLD
      {
        assert r.actions[k] == plan[k - |s.actions|];
      }
    }
  }

  /** The permission callback with code 206 and a grant: the pending record
      goes through `sendSMSDirect`, and the slot ends up empty even when the
      sends were made, so the record's result is then answered by nobody. */
  lemma PermissionGrantedPath(s: State, grantResults: seq<int>, smsManagerAvailable: bool)
    requires s.pendingSent.Some?
    requires |grantResults| > 0 && grantResults[0] == PERMISSION_GRANTED
    ensures var r := AfterPermissionsResult(s, REQUEST_CODE_PERMISSION, grantResults, smsManagerAvailable);
            var p := s.pendingSent.value;
            r.pendingSent.None? &&
            r.actions == AfterSendDirect(s, p.result, p.recipients, p.message, smsManagerAvailable).actions &&
            r.resolutions == AfterSendDirect(s, p.result, p.recipients, p.message, smsManagerAvailable).resolutions &&
            (s.activityAttached && smsManagerAvailable ==> r.resolutions == s.resolutions) &&
            (s.activityAttached && smsManagerAvailable ==> forall code :: AfterReceive(r, code) == r)
  {
  }

  /** The permission callback with code 206 and a denial or an empty grant
      array: the pending result is answered `permission_denied` and the slot
      cleared. */
  lemma PermissionDeniedPath(s: State, grantResults: seq<int>, smsManagerAvailable: bool)
    requires s.pendingSent.Some?
    requires !(|grantResults| > 0 && grantResults[0] == PERMISSION_GRANTED)
    ensures AfterPermissionsResult(s, REQUEST_CODE_PERMISSION, grantResults, smsManagerAvailable) ==
              s.(pendingSent := None,
                 resolutions := s.resolutions + [Resolution(s.pendingSent.value.result, Error(PermissionDenied))])
  {
  }

  /** A repeated broadcast answers nothing. */
  lemma DuplicateBroadcast(s: State, first: int, second: int)
    ensures AfterReceive(AfterReceive(s, first), second) == AfterReceive(s, first)
  {
  }

  // ---------------------------------------------------------------------------
  // The correlator over any interleaving of callbacks

  /** The inputs the plugin receives from the host, one at a time. */
  datatype Event =
    | ActivityAttached
    | ActivityDetached
    | MethodCall(name: string, args: map<string, Channel.Arg>, result: Handle, platform: Platform)
    | PermissionsResult(requestCode: int, grantResults: seq<int>, smsManagerAvailable: bool)
    | SentBroadcast(resultCode: int)

  function Step(s: State, e: Event): State
  {
    match e
    case ActivityAttached => s.(activityAttached := true)
    case ActivityDetached => s.(activityAttached := false)
    case MethodCall(name, args, h, platform) => AfterMethodCall(s, name, args, h, platform)
    case PermissionsResult(code, grants, sms) => AfterPermissionsResult(s, code, grants, sms)
    case SentBroadcast(code) => AfterReceive(s, code)
  }

  function Run(s: State, events: seq<Event>): State
    decreases events
  {
    if events == [] then s else Run(Step(s, events[0]), events[1..])
  }

  /** The handles handed out once `e` has arrived. */
  function IssuedBy(issued: set<Handle>, e: Event): set<Handle>
  {
    if e.MethodCall? then issued + {e.result} else issued
  }

  function IssuedAfter(issued: set<Handle>, events: seq<Event>): set<Handle>
    decreases events
  {
    if events == [] then issued else IssuedAfter(IssuedBy(issued, events[0]), events[1..])
  }

  /** Every method call brings a result handle not seen before. */
  predicate FreshRun(issued: set<Handle>, events: seq<Event>)
    decreases events
  {
    events == [] ||
    ((events[0].MethodCall? ==> events[0].result !in issued) &&
     FreshRun(IssuedBy(issued, events[0]), events[1..]))
  }

  predicate Resolved(log: seq<Resolution>, h: Handle)
  {
    exists i :: 0 <= i < |log| && log[i].handle == h
  }

  /** Every answered handle was handed out, and no handle is answered twice. */
  predicate LogConsistent(log: seq<Resolution>, issued: set<Handle>)
  {
    (forall i :: 0 <= i < |log| ==> log[i].handle in issued) &&
    (forall i, j :: 0 <= i < j < |log| ==> log[i].handle != log[j].handle)
  }

  /** The correlator invariant: the log is consistent and the pending record,
      if any, holds a handle that has not been answered. */
  predicate Consistent(s: State, issued: set<Handle>)
  {
    LogConsistent(s.resolutions, issued) &&
    (s.pendingSent.Some? ==> s.pendingSent.value.result in issued && !Resolved(s.resolutions, s.pendingSent.value.result))
  }

  /** Every entry point keeps the invariant. */
  lemma StepKeeps(s: State, issued: set<Handle>, e: Event)
    requires Consistent(s, issued)
    requires e.MethodCall? ==> e.result !in issued
    ensures Consistent(Step(s, e), IssuedBy(issued, e))
  {
  }

  /** At most once, over any interleaving of callbacks: whatever order the
      host delivers calls, permission results, broadcasts and activity changes
      in, as long as each call brings a new result handle, no handle is ever
      answered twice and the pending record never holds an answered handle. */
  lemma {:induction false} RunKeeps(s: State, issued: set<Handle>, events: seq<Event>)
    requires Consistent(s, issued) && FreshRun(issued, events)
    ensures Consistent(Run(s, events), IssuedAfter(issued, events))
    ensures forall i, j :: 0 <= i < j < |Run(s, events).resolutions| ==>
              Run(s, events).resolutions[i].handle != Run(s, events).resolutions[j].handle
    decreases events
  {
    if events != [] {
      StepKeeps(s, issued, events[0]);
      RunKeeps(Step(s, events[0]), IssuedBy(issued, events[0]), events[1..]);
    }
  }

  /** Answers are never taken back or changed: the log only grows, by at most
      one answer per event. */
  lemma {:induction false} RunExtendsLog(s: State, events: seq<Event>)
    ensures |s.resolutions| <= |Run(s, events).resolutions| <= |s.resolutions| + |events|
    ensures Run(s, events).resolutions[..|s.resolutions|] == s.resolutions
    decreases events
  {
    if events != [] {
      var t := Step(s, events[0]);
      assert |s.resolutions| <= |t.resolutions| <= |s.resolutions| + 1 && t.resolutions[..|s.resolutions|] == s.resolutions;
      RunExtendsLog(t, events[1..]);
      assert Run(s, events).resolutions[..|s.resolutions|] == Run(t, events[1..]).resolutions[..|t.resolutions|][..|s.resolutions|];
    }
  }

  /** Clear after resolve: an event that answers the pending record's handle
      also empties the slot. */
  lemma ClearAfterResolve(s: State, issued: set<Handle>, e: Event)
    requires Consistent(s, issued)
    requires e.MethodCall? ==> e.result !in issued
    requires s.pendingSent.Some? && Resolved(Step(s, e).resolutions, s.pendingSent.value.result)
    ensures Step(s, e).pendingSent.None?
  {
    StepKeeps(s, issued, e);
  }
}
