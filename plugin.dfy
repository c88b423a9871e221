/** `FlutterSmsPlugin` (FlutterSmsPlugin.kt:42-227) as a class: the fields the
    Kotlin object updates in place, and one method per entry point that updates
    them the way the Kotlin does. Each method is proved to leave the object in
    the state the matching transition of `Correlator` gives, and the public
    entry points keep the correlator invariant. */
module Plugin {
  import opened Recipients
  import opened Utf8
  import Channel
  import opened Correlator

  class FlutterSmsPlugin {
    /** `activity != null` */
    var activityAttached: bool
    var pendingSent: Option<PendingSent>
    /** Every answer given to a result handle, in order. */
    var resolutions: seq<Resolution>
    /** Every platform call made, in order. */
    var actions: seq<Action>
    /** The result handles the framework has handed in so far. */
    ghost var issued: set<Handle>

    function Snapshot(): State
      reads this
    {
      State(activityAttached, pendingSent, resolutions, actions)
    }

    ghost predicate Valid()
      reads this
    {
      Consistent(Snapshot(), issued)
    }

    constructor ()
      ensures Valid() && issued == {}
      ensures Snapshot() == State(false, None, [], [])
    {
      activityAttached := false;
      pendingSent := None;
      resolutions := [];
      actions := [];
      issued := {};
    }

    /** `onAttachedToActivity` (lines 51-55); registering the receiver and the
        permission listener is the host's wiring. */
    method OnAttachedToActivity()
      requires Valid()
      modifies this
      ensures Valid() && issued == old(issued)
      ensures Snapshot() == Step(old(Snapshot()), ActivityAttached)
    {
      activityAttached := true;
    }

    /** `onReattachedToActivityForConfigChanges` (lines 65-67) */
    method OnReattachedToActivityForConfigChanges()
      requires Valid()
      modifies this
      ensures Valid() && issued == old(issued)
      ensures Snapshot() == Step(old(Snapshot()), ActivityAttached)
    {
      activityAttached := true;
    }

    /** `onDetachedFromActivity` (lines 57-59) */
    method OnDetachedFromActivity()
      requires Valid()
      modifies this
      ensures Valid() && issued == old(issued)
      ensures Snapshot() == Step(old(Snapshot()), ActivityDetached)
    {
      activityAttached := false;
    }

    /** `onDetachedFromActivityForConfigChanges` (lines 61-63) */
    method OnDetachedFromActivityForConfigChanges()
      requires Valid()
      modifies this
      ensures Valid() && issued == old(issued)
      ensures Snapshot() == Step(old(Snapshot()), ActivityDetached)
    {
      activityAttached := false;
    }

    /** `onMethodCall` (lines 86-98), answering on the new handle `result`. */
    method OnMethodCall(name: string, args: map<string, Channel.Arg>, result: Handle, platform: Platform)
      requires Valid() && result !in issued
      modifies this
      ensures Valid() && issued == old(issued) + {result}
      ensures Snapshot() == AfterMethodCall(old(Snapshot()), name, args, result, platform)
    {
      ghost var before, handles := Snapshot(), issued;
      issued := issued + {result};
      match Channel.Dispatch(name, args) {
        case SendSms(message, recipients, sendDirect) =>
          SendSms(result, recipients, message, sendDirect, platform);
        case CanSendSms =>
          var ok := CanSendSms(activityAttached, platform);
          resolutions := resolutions + [Resolution(result, Success(BoolPayload(ok)))];
        case NotImplemented =>
          resolutions := resolutions + [Resolution(result, Unimplemented)];
        case ArgumentTypeError(_) =>
      }
      StepKeeps(before, handles, MethodCall(name, args, result, platform));
    }

    /** `sendSMS` (lines 132-143) */
    method SendSms(result: Handle, phones: string, message: string, sendDirect: bool, platform: Platform)
      modifies this
      ensures issued == old(issued)
      ensures Snapshot() == AfterSendSms(old(Snapshot()), result, phones, message, sendDirect, platform)
    {
      if sendDirect {
        var permitted := activityAttached && platform.permissionGranted;
        if permitted {
          SendSmsDirect(result, phones, message, platform.smsManagerAvailable);
        } else {
          pendingSent := Some(PendingSent(message, phones, result));
          RequestSmsPermission();
        }
      } else {
        SendSmsDialog(result, phones, message);
      }
    }

    /** `requestSmsPermission` (lines 109-117): only with an activity. */
    method RequestSmsPermission()
      modifies this
      ensures issued == old(issued)
      ensures Snapshot() == old(Snapshot()).(actions := old(actions) +
                (if old(activityAttached) then [RequestPermissions(SEND_SMS_PERMISSION, REQUEST_CODE_PERMISSION)] else []))
    {
      if activityAttached {
        actions := actions + [RequestPermissions(SEND_SMS_PERMISSION, REQUEST_CODE_PERMISSION)];
      }
    }

    /** `sendSMSDirect` (lines 145-171): one send per piece of the recipients
        string, then the record is stored to wait for the sent broadcast. */
    method SendSmsDirect(result: Handle, phones: string, message: string, smsManagerAvailable: bool)
      modifies this
      ensures issued == old(issued)
      ensures Snapshot() == AfterSendDirect(old(Snapshot()), result, phones, message, smsManagerAvailable)
    {
      if !activityAttached {
        resolutions := resolutions + [Resolution(result, Error(NoActivity))];
        return;
      }
      if !smsManagerAvailable {
        resolutions := resolutions + [Resolution(result, Error(NoSmsManager))];
        return;
      }
      var numbers := Split(phones, RECIPIENT_SEPARATOR);
      var i := 0;
      while i < |numbers|
        invariant 0 <= i <= |numbers|
        invariant actions == old(actions) + SendPlan(numbers[..i], message)
        invariant activityAttached && pendingSent == old(pendingSent) && resolutions == old(resolutions)
        invariant issued == old(issued)
      {
        var number := numbers[i];
        if Size(message) > MULTIPART_THRESHOLD {
          actions := actions + [SendMultipartText(number, message)];
        } else {
          actions := actions + [SendText(number, message)];
        }
        SendPlanAppend(numbers[..i], number, message);
        assert numbers[..i + 1] == numbers[..i] + [number];
        i := i + 1;
      }
      assert numbers[..i] == numbers;
      pendingSent := Some(PendingSent(message, phones, result));
    }

    /** `sendSMSDialog` (lines 173-185) */
    method SendSmsDialog(result: Handle, phones: string, message: string)
      modifies this
      ensures issued == old(issued)
      ensures Snapshot() == AfterSendDialog(old(Snapshot()), result, phones, message)
    {
      if !activityAttached {
        resolutions := resolutions + [Resolution(result, Error(NoActivity))];
        return;
      }
      actions := actions + [StartActivityForResult(SMS_URI_PREFIX + phones, message, REQUEST_CODE_SEND_SMS)];
      resolutions := resolutions + [Resolution(result, Success(TextPayload(SMS_SENT)))];
    }

    /** `onRequestPermissionsResult` (lines 187-208) */
    method OnRequestPermissionsResult(requestCode: int, grantResults: seq<int>, smsManagerAvailable: bool)
      returns (handled: bool)
      requires Valid()
      modifies this
      ensures Valid() && issued == old(issued)
      ensures handled == Handled(requestCode)
      ensures Snapshot() == AfterPermissionsResult(old(Snapshot()), requestCode, grantResults, smsManagerAvailable)
    {
      ghost var before := Snapshot();
      StepKeeps(before, issued, PermissionsResult(requestCode, grantResults, smsManagerAvailable));
      if requestCode == REQUEST_CODE_PERMISSION {
        if |grantResults| > 0 && grantResults[0] == PERMISSION_GRANTED {
          match pendingSent {
            case Some(it) =>
              SendSmsDirect(it.result, it.recipients, it.message, smsManagerAvailable);
              pendingSent := None;
            case None =>
          }
          return true;
        } else {
          match pendingSent {
            case Some(it) =>
              resolutions := resolutions + [Resolution(it.result, Error(PermissionDenied))];
              pendingSent := None;
            case None =>
          }
          return true;
        }
      }
      return false;
    }

    /** `onReceive` (lines 210-226), with the broadcast's result code. */
    method OnReceive(resultCode: int)
      requires Valid()
      modifies this
      ensures Valid() && issued == old(issued)
      ensures Snapshot() == AfterReceive(old(Snapshot()), resultCode)
    {
      ghost var before := Snapshot();
      StepKeeps(before, issued, SentBroadcast(resultCode));
      if resultCode == RESULT_OK {
        match pendingSent {
          case Some(it) =>
            resolutions := resolutions + [Resolution(it.result, Success(TextPayload(SMS_SENT)))];
            pendingSent := None;
          case None =>
        }
      } else {
        match pendingSent {
          case Some(it) =>
            resolutions := resolutions + [Resolution(it.result, Error(SmsFailed))];
            pendingSent := None;
          case None =>
        }
      }
    }
  }
}
