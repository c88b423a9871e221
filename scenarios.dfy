/** Call sequences on a fresh plugin, with what the host observes at the end:
    the answers given to result handles, the platform calls made and the
    pending slot. Each follows from the contracts of the entry points alone. */
module Scenarios {
  import opened Recipients
  import Channel
  import opened Correlator
  import opened Plugin

  /** The arguments a "sendSMS" call carries. */
  function SendArgs(message: string, recipients: string, sendDirect: bool): map<string, Channel.Arg>
  {
    map[Channel.MESSAGE_KEY := Channel.StringArg(message),
        Channel.RECIPIENTS_KEY := Channel.StringArg(recipients),
        Channel.SEND_DIRECT_KEY := Channel.BoolArg(sendDirect)]
  }

  /** A platform that has everything except, perhaps, the permission. */
  function Device(permissionGranted: bool): Platform
  {
    Platform(permissionGranted, true, true, Handler(true))
  }

  lemma SendArgsDispatch(message: string, recipients: string, sendDirect: bool)
    ensures Channel.Dispatch(Channel.SEND_SMS_METHOD, SendArgs(message, recipients, sendDirect)) ==
              Channel.SendSms(message, recipients, sendDirect)
  {
    var args := SendArgs(message, recipients, sendDirect);
    assert Channel.StringArgument(args, Channel.MESSAGE_KEY, "") == Channel.Value(message);
    assert Channel.StringArgument(args, Channel.RECIPIENTS_KEY, "") == Channel.Value(recipients);
  }

  /** A single recipient without separators is one piece. */
  lemma SplitSingle(number: string)
    requires RECIPIENT_SEPARATOR !in number
    ensures Split(number, RECIPIENT_SEPARATOR) == [number]
  {
    SplitJoin([number], RECIPIENT_SEPARATOR);
  }

  /** A short message to one recipient is one single-part send. */
  lemma PlanOne(number: string, message: string)
    requires RECIPIENT_SEPARATOR !in number && |message| * 4 <= MULTIPART_THRESHOLD
    ensures SendPlan(Split(number, RECIPIENT_SEPARATOR), message) == [SendText(number, message)]
  {
    SplitSingle(number);
    MultipartThreshold(number, message);
  }

  /** Permission missing, then granted: the request is made and the text is
      sent, but the record is dropped by the callback, so the delivery
      broadcast finds nothing and the caller's result is never answered. */
  method PermissionGrantedLater() returns (answers: seq<Resolution>, calls: seq<Action>, slot: Option<PendingSent>)
    ensures answers == []
    ensures calls == [RequestPermissions(SEND_SMS_PERMISSION, REQUEST_CODE_PERMISSION), SendText("12345", "hi")]
    ensures slot == None
  {
    var plugin := new FlutterSmsPlugin();
    plugin.OnAttachedToActivity();
    SendArgsDispatch("hi", "12345", true);
    plugin.OnMethodCall(Channel.SEND_SMS_METHOD, SendArgs("hi", "12345", true), 1, Device(false));
    assert plugin.pendingSent == Some(PendingSent("hi", "12345", 1));
    assert plugin.actions == [RequestPermissions(SEND_SMS_PERMISSION, REQUEST_CODE_PERMISSION)];
    PlanOne("12345", "hi");
    var handled := plugin.OnRequestPermissionsResult(REQUEST_CODE_PERMISSION, [PERMISSION_GRANTED], true);
    assert plugin.actions == [RequestPermissions(SEND_SMS_PERMISSION, REQUEST_CODE_PERMISSION), SendText("12345", "hi")];
    assert plugin.resolutions == [] && plugin.pendingSent == None;
    plugin.OnReceive(RESULT_OK);
    answers, calls, slot := plugin.resolutions, plugin.actions, plugin.pendingSent;
  }

  /** Permission already granted: the text is sent at once, no permission is
      requested, and a failed broadcast answers `sms_failed`. */
  method GrantedThenDeliveryFailed() returns (answers: seq<Resolution>, calls: seq<Action>, slot: Option<PendingSent>)
    ensures answers == [Resolution(1, Error(SmsFailed))]
    ensures calls == [SendText("12345", "hi")]
    ensures slot == None
  {
    var plugin := new FlutterSmsPlugin();
    plugin.OnAttachedToActivity();
    SendArgsDispatch("hi", "12345", true);
    PlanOne("12345", "hi");
    plugin.OnMethodCall(Channel.SEND_SMS_METHOD, SendArgs("hi", "12345", true), 1, Device(true));
    assert plugin.actions == [SendText("12345", "hi")];
    assert plugin.pendingSent == Some(PendingSent("hi", "12345", 1));
    plugin.OnReceive(0);
    answers, calls, slot := plugin.resolutions, plugin.actions, plugin.pendingSent;
  }

  /** A successful broadcast answers "SMS Sent!" once; a second broadcast
      answers nothing. */
  method DeliveredTwice() returns (answers: seq<Resolution>)
    ensures answers == [Resolution(7, Success(TextPayload(SMS_SENT)))]
  {
    var plugin := new FlutterSmsPlugin();
    plugin.OnAttachedToActivity();
    SendArgsDispatch("hi", "12345", true);
    plugin.OnMethodCall(Channel.SEND_SMS_METHOD, SendArgs("hi", "12345", true), 7, Device(true));
    plugin.OnReceive(RESULT_OK);
    plugin.OnReceive(RESULT_OK);
    answers := plugin.resolutions;
  }

  /** Permission denied: `permission_denied`, and a later broadcast is a no-op. */
  method PermissionRefused() returns (answers: seq<Resolution>, calls: seq<Action>)
    ensures answers == [Resolution(1, Error(PermissionDenied))]
    ensures calls == [RequestPermissions(SEND_SMS_PERMISSION, REQUEST_CODE_PERMISSION)]
  {
    var plugin := new FlutterSmsPlugin();
    plugin.OnAttachedToActivity();
    SendArgsDispatch("hi", "12345", true);
    plugin.OnMethodCall(Channel.SEND_SMS_METHOD, SendArgs("hi", "12345", true), 1, Device(false));
    var handled := plugin.OnRequestPermissionsResult(REQUEST_CODE_PERMISSION, [], true);
    plugin.OnReceive(RESULT_OK);
    answers, calls := plugin.resolutions, plugin.actions;
  }

  /** A second direct send while the first waits for permission overwrites
      the record: after the grant only the second message goes out, and the
      first caller is never answered. */
  method OverwrittenWhileWaiting() returns (answers: seq<Resolution>, calls: seq<Action>)
    ensures answers == []
    ensures calls == [RequestPermissions(SEND_SMS_PERMISSION, REQUEST_CODE_PERMISSION),
                      RequestPermissions(SEND_SMS_PERMISSION, REQUEST_CODE_PERMISSION),
                      SendText("222", "second")]
  {
    var plugin := new FlutterSmsPlugin();
    plugin.OnAttachedToActivity();
    SendArgsDispatch("first", "111", true);
    SendArgsDispatch("second", "222", true);
    plugin.OnMethodCall(Channel.SEND_SMS_METHOD, SendArgs("first", "111", true), 1, Device(false));
    plugin.OnMethodCall(Channel.SEND_SMS_METHOD, SendArgs("second", "222", true), 2, Device(false));
    assert plugin.pendingSent == Some(PendingSent("second", "222", 2));
    PlanOne("222", "second");
    var handled := plugin.OnRequestPermissionsResult(REQUEST_CODE_PERMISSION, [PERMISSION_GRANTED], true);
    answers, calls := plugin.resolutions, plugin.actions;
  }

  /** Without an activity the permission check fails and no request can be
      made: the record is stored and nothing else happens. */
  method DirectWithoutActivity() returns (answers: seq<Resolution>, calls: seq<Action>, slot: Option<PendingSent>)
    ensures answers == [] && calls == []
    ensures slot == Some(PendingSent("hi", "12345", 1))
  {
    var plugin := new FlutterSmsPlugin();
    SendArgsDispatch("hi", "12345", true);
    plugin.OnMethodCall(Channel.SEND_SMS_METHOD, SendArgs("hi", "12345", true), 1, Device(true));
    answers, calls, slot := plugin.resolutions, plugin.actions, plugin.pendingSent;
  }

  /** An 81-character message goes to each of two recipients as a multipart
      send, which carries no sent-broadcast intent. */
  method LongMessageMultipart() returns (calls: seq<Action>, slot: Option<PendingSent>)
    ensures calls == [SendMultipartText("1", LongText()), SendMultipartText("2", LongText())]
    ensures slot == Some(PendingSent(LongText(), "1;2", 1))
  {
    var plugin := new FlutterSmsPlugin();
    plugin.OnAttachedToActivity();
    SendArgsDispatch(LongText(), "1;2", true);
    assert Split("1;2", RECIPIENT_SEPARATOR) == ["1", "2"] by {
      SplitJoin(["1", "2"], RECIPIENT_SEPARATOR);
      assert Join(["1", "2"], RECIPIENT_SEPARATOR) == "1;2";
    }
    MultipartThreshold("1", LongText());
    MultipartThreshold("2", LongText());
    assert SendPlan(["1", "2"], LongText()) == [SendFor("1", LongText()), SendFor("2", LongText())];
    plugin.OnMethodCall(Channel.SEND_SMS_METHOD, SendArgs(LongText(), "1;2", true), 1, Device(true));
    calls, slot := plugin.actions, plugin.pendingSent;
  }

  function LongText(): (t: string)
    ensures |t| == MULTIPART_THRESHOLD + 1
  {
    seq(MULTIPART_THRESHOLD + 1, _ => 'a')
  }

  /** "1;;2" is three recipients, the middle one empty. */
  method EmptyRecipientKept() returns (calls: seq<Action>)
    ensures calls == [SendText("1", "hi"), SendText("", "hi"), SendText("2", "hi")]
  {
    var plugin := new FlutterSmsPlugin();
    plugin.OnAttachedToActivity();
    SendArgsDispatch("hi", "1;;2", true);
    assert Split("1;;2", RECIPIENT_SEPARATOR) == ["1", "", "2"] by {
      SplitJoin(["1", "", "2"], RECIPIENT_SEPARATOR);
      assert Join(["1", "", "2"], RECIPIENT_SEPARATOR) == "1;;2";
    }
    plugin.OnMethodCall(Channel.SEND_SMS_METHOD, SendArgs("hi", "1;;2", true), 1, Device(true));
    calls := plugin.actions;
  }

  /** The dialog path and the other method names, on one plugin: a dialog
      send without an activity fails, with one it launches the SMS app and
      succeeds at once, "canSendSMS" answers a boolean and any other name is
      not implemented. None of them touches the slot. */
  method DialogAndOtherMethods() returns (answers: seq<Resolution>, calls: seq<Action>, slot: Option<PendingSent>)
    ensures answers == [Resolution(1, Error(NoActivity)),
                        Resolution(2, Success(TextPayload(SMS_SENT))),
                        Resolution(3, Success(BoolPayload(true))),
                        Resolution(4, Unimplemented)]
    ensures calls == [StartActivityForResult("smsto:12345", "hi", REQUEST_CODE_SEND_SMS)]
    ensures slot == None
  {
    var plugin := new FlutterSmsPlugin();
    SendArgsDispatch("hi", "12345", false);
    plugin.OnMethodCall(Channel.SEND_SMS_METHOD, SendArgs("hi", "12345", false), 1, Device(true));
    plugin.OnAttachedToActivity();
    plugin.OnMethodCall(Channel.SEND_SMS_METHOD, SendArgs("hi", "12345", false), 2, Device(true));
    assert SMS_URI_PREFIX + "12345" == "smsto:12345";
    assert plugin.actions == [StartActivityForResult("smsto:12345", "hi", REQUEST_CODE_SEND_SMS)];
    plugin.OnMethodCall(Channel.CAN_SEND_SMS_METHOD, map[], 3, Device(true));
    plugin.OnMethodCall("sendMMS", map[], 4, Device(true));
    answers, calls, slot := plugin.resolutions, plugin.actions, plugin.pendingSent;
  }
}
