/** Method-name dispatch of `onMethodCall` (FlutterSmsPlugin.kt:86-98): which
    operation a call on the "send_message" channel selects, and the arguments
    it is given after Kotlin's `?:` defaults. */
module Channel {

  /** A value in a call's argument map; `OtherArg` is any value of a type the
      plugin does not read (a number, a list, a map). */
  datatype Arg = StringArg(s: string) | BoolArg(b: bool) | OtherArg | NullArg

  /** What `onMethodCall` does with a call. `ArgumentTypeError` is the
      `ClassCastException` that `call.argument<String?>` or
      `call.argument<Boolean?>` raises on a value of another type: it escapes
      `onMethodCall` before anything else happens. */
  datatype Route =
    | SendSms(message: string, recipients: string, sendDirect: bool)
    | CanSendSms
    | NotImplemented
    | ArgumentTypeError(key: string)

  const SEND_SMS_METHOD := "sendSMS"
  const CAN_SEND_SMS_METHOD := "canSendSMS"
  const MESSAGE_KEY := "message"
  const RECIPIENTS_KEY := "recipients"
  const SEND_DIRECT_KEY := "sendDirect"

  /** The outcome of reading one argument: its value after defaulting, or a
      value of the wrong type. */
  datatype Read<T> = Value(value: T) | Mistyped

  /** A value for `key` the plugin can read as a string (absent and null read
      as missing). */
  predicate ReadsAsString(args: map<string, Arg>, key: string)
  {
    key !in args || args[key].NullArg? || args[key].StringArg?
  }

  predicate ReadsAsBool(args: map<string, Arg>, key: string)
  {
    key !in args || args[key].NullArg? || args[key].BoolArg?
  }

  /** `call.argument<String?>(key) ?: default` */
  function StringArgument(args: map<string, Arg>, key: string, default: string): Read<string>
  {
    if key !in args then Value(default)
    else match args[key]
      case StringArg(s) => Value(s)
      case NullArg => Value(default)
      case _ => Mistyped
  }

  /** `call.argument<Boolean?>(key) ?: default` */
  function BoolArgument(args: map<string, Arg>, key: string, default: bool): Read<bool>
  {
    if key !in args then Value(default)
    else match args[key]
      case BoolArg(b) => Value(b)
      case NullArg => Value(default)
      case _ => Mistyped
  }

  /** The `when (call.method)` of `onMethodCall`: "sendSMS" reads "message",
      "recipients" and "sendDirect" in that order, defaulting to "", "" and
      false; "canSendSMS" takes no arguments; every other name is not
      implemented. */
  function Dispatch(name: string, args: map<string, Arg>): (route: Route)
    ensures route.CanSendSms? <==> name == CAN_SEND_SMS_METHOD
    ensures route.NotImplemented? <==> name != SEND_SMS_METHOD && name != CAN_SEND_SMS_METHOD
    ensures route.ArgumentTypeError? <==>
              name == SEND_SMS_METHOD &&
              !(ReadsAsString(args, MESSAGE_KEY) && ReadsAsString(args, RECIPIENTS_KEY) && ReadsAsBool(args, SEND_DIRECT_KEY))
    ensures route.ArgumentTypeError? ==>
              route.key in args && !args[route.key].NullArg? &&
              (route.key == MESSAGE_KEY ==> !args[route.key].StringArg?) &&
              (route.key == RECIPIENTS_KEY ==> !args[route.key].StringArg? && ReadsAsString(args, MESSAGE_KEY)) &&
              (route.key == SEND_DIRECT_KEY ==> !args[route.key].BoolArg? &&
                                                ReadsAsString(args, MESSAGE_KEY) && ReadsAsString(args, RECIPIENTS_KEY)) &&
              (route.key == MESSAGE_KEY || route.key == RECIPIENTS_KEY || route.key == SEND_DIRECT_KEY)
    ensures route.SendSms? ==>
              name == SEND_SMS_METHOD &&
              (route.message != "" ==> MESSAGE_KEY in args && args[MESSAGE_KEY] == StringArg(route.message)) &&
              (route.recipients != "" ==> RECIPIENTS_KEY in args && args[RECIPIENTS_KEY] == StringArg(route.recipients)) &&
              (route.sendDirect <==> SEND_DIRECT_KEY in args && args[SEND_DIRECT_KEY] == BoolArg(true))
    ensures route.SendSms? && MESSAGE_KEY in args && args[MESSAGE_KEY].StringArg? ==>
              route.message == args[MESSAGE_KEY].s
    ensures route.SendSms? && RECIPIENTS_KEY in args && args[RECIPIENTS_KEY].StringArg? ==>
              route.recipients == args[RECIPIENTS_KEY].s
  {
    if name == SEND_SMS_METHOD then
      match StringArgument(args, MESSAGE_KEY, "")
      case Mistyped => ArgumentTypeError(MESSAGE_KEY)
      case Value(message) =>
        match StringArgument(args, RECIPIENTS_KEY, "")
        case Mistyped => ArgumentTypeError(RECIPIENTS_KEY)
        case Value(recipients) =>
          match BoolArgument(args, SEND_DIRECT_KEY, false)
          case Mistyped => ArgumentTypeError(SEND_DIRECT_KEY)
          case Value(sendDirect) => SendSms(message, recipients, sendDirect)
    else if name == CAN_SEND_SMS_METHOD then CanSendSms
    else NotImplemented
  }
}
