/** The `notify-send` backend: building the command line that shows or
    replaces a desktop notification, reading the id the daemon prints back,
    and the handle that remembers that id so a later update replaces the
    notification on screen instead of adding a new one. */
module NotifySend {
  import opened Wrappers
  import opened Decimal
  import opened Text

  /** How long the notification stays up. */
  datatype Timeout = Default | Never | Milliseconds(ms: u32)

  /** The fields of a notification that the command line uses. */
  datatype Notification = Notification(
    appname: string,
    icon: string,
    summary: string,
    body: string,
    timeout: Timeout)

  /** What can go wrong in one dispatch. */
  datatype Error =
    | ProcessError   // running the program failed: it could not be started, or waiting for it failed
    | EncodingError  // its standard output is not valid UTF-8
    | ParseError     // the trimmed output is not a u32 numeral

  /** One invocation of an external program. */
  datatype Command = Command(program: string, args: seq<string>)

  /** What running a command and decoding its standard output yields. The
      process runner and the UTF-8 decoder are outside this model: a caller
      supplies them as a function from the command to this outcome. */
  datatype ExecOutcome = Stdout(text: string) | RunFailed | InvalidUtf8

  const Program: string := "notify-send"

  /** The flags before the seven fixed trailing arguments. */
  function Options(args: seq<string>): seq<string>
    requires |args| >= 7
  {
    args[..|args| - 7]
  }

  /** The argument vector for showing `n`, replacing notification
      `previousId` when there is one. */
  function Args(n: Notification, previousId: Option<u32>): (args: seq<string>)
    ensures |args| == 7 + (if n.timeout.Milliseconds? then 2 else 0) + (if previousId.Some? then 2 else 0)
    ensures args[|args| - 7..] == ["--print-id", "--app-name", n.appname, "--icon", n.icon, n.summary, n.body]
    ensures "--expire-time" in Options(args) <==> n.timeout.Milliseconds?
    ensures n.timeout.Milliseconds? ==>
      Options(args)[0] == "--expire-time" && Options(args)[1] == NatToString(n.timeout.ms)
    ensures "--replace-id" in Options(args) <==> previousId.Some?
    ensures previousId.Some? ==>
      var opts := Options(args);
      opts[|opts| - 2] == "--replace-id" && opts[|opts| - 1] == NatToString(previousId.value)
  {
    var expire := match n.timeout
      case Milliseconds(ms) => ["--expire-time", NatToString(ms)]
      case _ => [];
    var replace := match previousId
      case Some(p) => ["--replace-id", NatToString(p)]
      case None => [];
    var args := expire + replace + ["--print-id", "--app-name", n.appname, "--icon", n.icon, n.summary, n.body];
    assert Options(args) == expire + replace;
    args
  }

  /** Among the options, `--expire-time` comes before `--replace-id`. */
  lemma ExpireTimeBeforeReplaceId(n: Notification, previousId: Option<u32>, i: nat, j: nat)
    requires var opts := Options(Args(n, previousId));
      i < |opts| && j < |opts| && opts[i] == "--expire-time" && opts[j] == "--replace-id"
    ensures i < j
  {
  }

  /** The result of one dispatch of `n` when `run` executes commands. Each
      error has exactly one cause, and an id is only ever the value of the
      numeral the program printed. */
  function Dispatch(n: Notification, previousId: Option<u32>, run: Command -> ExecOutcome): (r: Result<u32, Error>)
    ensures var out := run(Command(Program, Args(n, previousId)));
      (r == Err(ProcessError) <==> out.RunFailed?) &&
      (r == Err(EncodingError) <==> out.InvalidUtf8?) &&
      (r == Err(ParseError) <==> out.Stdout? && ParseId(out.text).Err?)
    ensures var out := run(Command(Program, Args(n, previousId)));
      r.Ok? ==>
        out.Stdout? &&
        AllDigits(Unsigned(TrimEnd(out.text))) && r.value == Value(Unsigned(TrimEnd(out.text)))
  {
    match run(Command(Program, Args(n, previousId)))
    case RunFailed => Err(ProcessError)
    case InvalidUtf8 => Err(EncodingError)
    case Stdout(text) => ParseId(text)
  }

  /** A daemon that prints an id and a newline makes the dispatch return
      that id, whatever the command line. */
  lemma DispatchReadsPrintedId(n: Notification, previousId: Option<u32>, run: Command -> ExecOutcome, id: u32)
    requires run(Command(Program, Args(n, previousId))) == Stdout(NatToString(id) + "\n")
    ensures Dispatch(n, previousId, run) == Ok(id)
  {
    ReplaceIdReadsBack(id);
  }

  /** Reads the id the daemon printed: it succeeds exactly when the text
      before its trailing whitespace is an optional '+' and a non-empty
      numeral of value at most `U32_MAX`, and yields that numeral's value;
      every failure is a `ParseError`. */
  function ParseId(text: string): (r: Result<u32, Error>)
    ensures var d := Unsigned(TrimEnd(text));
      r.Ok? <==> |d| > 0 && AllDigits(d) && Value(d) <= U32_MAX
    ensures r.Ok? ==> AllDigits(Unsigned(TrimEnd(text))) && r.value == Value(Unsigned(TrimEnd(text)))
    ensures r.Err? ==> r.error == ParseError
  {
    match ParseU32(TrimEnd(text))
    case Some(id) => Ok(id)
    case None => Err(ParseError)
  }

  /** The rendered id followed by any trailing whitespace (a newline, say)
      reads back as that id; a number beyond the u32 range is a parse error. */
  lemma ParseIdRendering(n: nat, ws: string)
    requires AllWhitespace(ws)
    ensures ParseId(NatToString(n) + ws) == if n <= U32_MAX then Ok(n) else Err(ParseError)
  {
    var s := NatToString(n);
    assert !IsWhitespace(s[|s| - 1]);
    TrimEndAppended(s, ws);
    ParseRendering(n);
  }

  /** The value passed after `--replace-id` is exactly what the parser reads
      back from the daemon's "<id>\n". */
  lemma ReplaceIdReadsBack(p: u32)
    ensures ParseId(NatToString(p) + "\n") == Ok(p)
  {
    ParseIdRendering(p, "\n");
  }

  /** Leading whitespace is not trimmed, so it makes the text unreadable. */
  lemma LeadingWhitespaceRejected(text: string)
    requires |text| > 0 && IsWhitespace(text[0])
    ensures ParseId(text) == Err(ParseError)
  {
  }

  /** Readable outputs: the id alone, followed by a newline and spaces, or
      after a plus sign. */
  lemma ParseIdAcceptsExamples()
    ensures ParseId("42") == Ok(42)
    ensures ParseId("42\n") == Ok(42)
    ensures ParseId("42\n  ") == Ok(42)
    ensures ParseId("+42\n") == Ok(42)
  {
    assert DigitChar(4) == '4' && DigitChar(2) == '2';
    assert NatToString(4) == "4";
    assert NatToString(42) == "42";
    var text := NatToString(42);
    ParseIdRendering(42, "");
    assert text + "" == "42";
    ParseIdRendering(42, "\n");
    assert text + "\n" == "42\n";
    ParseIdRendering(42, "\n  ");
    assert text + "\n  " == "42\n  ";
    TrimEndAppended("+42", "\n");
    assert "+42" + "\n" == "+42\n";
    assert Unsigned("+42") == "42";
  }

  /** Unreadable outputs: nothing, text, or an id after a space. */
  lemma ParseIdRejectsExamples()
    ensures ParseId("") == Err(ParseError)
    ensures ParseId("abc") == Err(ParseError)
    ensures ParseId("not-a-number") == Err(ParseError)
    ensures ParseId(" 42") == Err(ParseError)
  {
  }

  /** `send_notification`: builds the command line flag by flag, runs it and
      reads the printed id. */
  method SendNotification(n: Notification, previousId: Option<u32>, run: Command -> ExecOutcome)
    returns (r: Result<u32, Error>)
    ensures r == Dispatch(n, previousId, run)
  {
    var args: seq<string> := [];
    if n.timeout.Milliseconds? {
      args := args + ["--expire-time", NatToString(n.timeout.ms)];
    }
    if previousId.Some? {
      args := args + ["--replace-id", NatToString(previousId.value)];
    }
    args := args + ["--print-id", "--app-name", n.appname, "--icon", n.icon, n.summary, n.body];
    assert args == Args(n, previousId);
    var output := run(Command(Program, args));
    match output {
      case RunFailed => r := Err(ProcessError);
      case InvalidUtf8 => r := Err(EncodingError);
      case Stdout(text) => r := ParseId(text);
    }
  }

  /** A shown notification together with the id the daemon gave it. The
      content is a public field: changing it does not contact the daemon. */
  class NotificationHandle {
    var id: u32
    var notification: Notification

    constructor (id: u32, notification: Notification)
      ensures this.id == id && this.notification == notification
    {
      this.id := id;
      this.notification := notification;
    }

    /** Re-sends the current content as a replacement of notification `id`.
        On success the handle takes the id the daemon returned, which need
        not be the old one; on failure the error is returned and the id
        stays as it was. The content is never changed. */
    method UpdateFallible(run: Command -> ExecOutcome) returns (r: Result<(), Error>)
      modifies this`id
      ensures notification == old(notification)
      ensures match Dispatch(notification, Some(old(id)), run)
        case Ok(newId) => id == newId && r == Ok(())
        case Err(e) => id == old(id) && r == Err(e)
    {
      var sent := SendNotification(notification, Some(id), run);
      match sent {
        case Ok(newId) =>
          id := newId;
          r := Ok(());
        case Err(e) =>
          r := Err(e);
      }
    }

    /** `update`: `UpdateFallible` for callers that treat a failed dispatch as
        fatal; the abort is modelled by requiring the dispatch to succeed. */
    method Update(run: Command -> ExecOutcome)
      requires Dispatch(notification, Some(id), run).Ok?
      modifies this`id
      ensures notification == old(notification)
      ensures id == Dispatch(notification, Some(old(id)), run).value
    {
      var _ := UpdateFallible(run);
    }
  }

  /** `show_notification`: dispatches with no id to replace; on success the
      new handle holds a copy of `n` and the returned id, otherwise the
      dispatch error comes back and no handle exists. */
  method ShowNotification(n: Notification, run: Command -> ExecOutcome)
    returns (r: Result<NotificationHandle, Error>)
    ensures match Dispatch(n, None, run)
      case Ok(id) => r.Ok? && fresh(r.value) && r.value.id == id && r.value.notification == n
      case Err(e) => r == Err(e)
  {
    var sent := SendNotification(n, None, run);
    match sent {
      case Ok(id) =>
        var handle := new NotificationHandle(id, n);
        r := Ok(handle);
      case Err(e) =>
        r := Err(e);
    }
  }
}
