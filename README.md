# notify-send backend of notify-rust, modelled in Dafny

This project models `src/notify_send.rs` of notify-rust. That file is the
backend which shows desktop notifications by running the external
`notify-send` program. It has three parts, and all three are modelled:

- **Command line** (`NotifySend.Args`, `NotifySend.SendNotification`).
  The argument vector is built from five fields of the notification plus an
  optional id to replace:
  - `--expire-time <ms>`, only for a `Milliseconds` timeout;
  - then `--replace-id <id>`, when there is a previous id;
  - then seven fixed arguments: `--print-id`, `--app-name`, the app name,
    `--icon`, the icon, the summary and the body.

  A `Never` timeout emits no flag, the same as `Default`. The model keeps
  that as written.
- **Reading the id** (`NotifySend.ParseId`, built on `Text.TrimEnd` and
  `Decimal.ParseU32`).
  - Trailing whitespace is removed. This is `str::trim_end`: every character
    with the Unicode White_Space property, not just one newline.
  - The rest must be what `str::parse::<u32>` accepts:
    - one optional `+`;
    - then one or more ASCII digits;
    - with a value of at most 4294967295.

  `Decimal.NatToString` is the decimal rendering used for both flag values.
  The lemmas prove that the parser reads a rendering back.
- **Handle** (`NotifySend.NotificationHandle`, `NotifySend.ShowNotification`).
  A class with the two fields of the Rust struct: `id` and `notification`.
  - `UpdateFallible` re-sends the content with `--replace-id` set to the
    current id. On success it stores the id the daemon returns, which may
    differ from the old one. On failure it returns the error and changes
    nothing.
  - `ShowNotification` dispatches with no id to replace. On success it
    returns a fresh handle.

Running the program and decoding its output as UTF-8 are outside the model.
Every operation that dispatches takes a function `run: Command ->
ExecOutcome` for them. `run` maps the exact command line to one of three
outcomes: the decoded standard output, `RunFailed` (`ProcessError`: the
program could not be started, or waiting for it failed), or `InvalidUtf8`
(`EncodingError`). The source never looks at the program's
exit status, so the outcome has none. `NotifySend.Dispatch` is the meaning
of one call of `send_notification` in terms of `run`.

Two consequences of the standard-library calls are worth stating:
- `trim_end` removes every trailing whitespace character, not only one line
  terminator.
- `parse::<u32>` accepts one leading '+', so `"+42\n"` reads as 42
  (`NotifySend.ParseIdAcceptsExamples`).

## Model

| member | source | states |
|---|---|---|
| `Decimal.NatToString` | src/notify_send.rs:73 | The rendering of an id is a non-empty string of digits. It denotes that number, and it starts with '0' exactly when the number is 0. |
| `Decimal.CanonicalIsRendering` | src/notify_send.rs:73 | Every digit string without a superfluous leading zero is the rendering of its value. So the rendering is the unique canonical spelling. |
| `Text.TrimEnd` | src/notify_send.rs:88 | `trim_end` gives a prefix of the text. Only whitespace follows that prefix, and the prefix does not itself end in whitespace. |
| `Text.IsWhitespace` | src/notify_send.rs:88 | The whitespace `trim_end` removes is `char::is_whitespace`, the Unicode White_Space code points. It includes space, tab, newline and carriage return, and never a digit or '+', so trimming cannot remove any part of an id. |
| `Text.TrimEndUnique` | src/notify_send.rs:88 | Those three properties determine the trimmed text uniquely. |
| `Text.TrimEndAppended` | src/notify_send.rs:88 | Text that does not end in whitespace, followed by any whitespace, trims back to exactly that text. |
| `Decimal.Accumulate` | src/notify_send.rs:88 | The digit loop of `from_str_radix` checks for overflow on every step. For any starting value, any non-digit gives `None`. Otherwise the result is the start followed by the digits, read as one numeral, when that fits in a u32, and `None` when it does not. |
| `Decimal.ParseU32` | src/notify_send.rs:88 | `parse::<u32>` succeeds exactly on an optional '+' followed by a non-empty numeral of value at most 4294967295. It then returns that value. |
| `Decimal.ParseRendering` | src/notify_send.rs:88 | Parsing the rendering of n gives n when n fits in 32 bits. Otherwise it fails. |
| `NotifySend.Args` | src/notify_send.rs:68-84 | The argument vector has length 7, 9 or 11. Its last seven elements are the fixed flags and fields, in order. Among the options, `--expire-time` occurs exactly for a `Milliseconds` timeout, first and followed by the decimal ms. `--replace-id` occurs exactly when a previous id is given, last and followed by the decimal id. |
| `NotifySend.Dispatch` | src/notify_send.rs:62-89 | One `send_notification` call. `ProcessError` arises exactly when running the program fails: it cannot be started, or waiting for it fails. `EncodingError` arises exactly when its output is not UTF-8. `ParseError` arises exactly when the output is readable but not an id. A returned id is always the value of the numeral the program printed. |
| `NotifySend.ExpireTimeBeforeReplaceId` | src/notify_send.rs:68-74 | When both flags are present, `--expire-time` precedes `--replace-id`. |
| `NotifySend.DispatchReadsPrintedId` | src/notify_send.rs:86-88 | If the program prints an id and a newline, dispatch returns that id. |
| `NotifySend.ParseIdRendering` | src/notify_send.rs:88 | A rendered number followed by any trailing whitespace reads back as that number if it is at most 4294967295. Otherwise the result is `ParseError`. |
| `NotifySend.ReplaceIdReadsBack` | src/notify_send.rs:73 | For every u32 p, the value rendered after `--replace-id`, followed by a newline, parses back to p. |
| `NotifySend.ParseId` | src/notify_send.rs:88 | Reading the id succeeds exactly when the text before its trailing whitespace is an optional '+' and a non-empty numeral of value at most 4294967295. The result is that numeral's value, and every failure is `ParseError`. |
| `NotifySend.LeadingWhitespaceRejected` | src/notify_send.rs:88 | Text that starts with whitespace is a `ParseError`, because only trailing whitespace is trimmed. |
| `NotifySend.ParseIdAcceptsExamples` | src/notify_send.rs:88 | "42", "42\n", "42\n  " and "+42\n" all read as 42. |
| `NotifySend.ParseIdRejectsExamples` | src/notify_send.rs:88 | "", "abc", "not-a-number" and " 42" are all `ParseError`. |
| `NotifySend.SendNotification` | src/notify_send.rs:62-89 | It builds the arguments by successive appends and runs `notify-send` with them. It maps a failure to run the program to `ProcessError` and bad UTF-8 to `EncodingError`, and otherwise returns the parsed id. This equals `Dispatch`. |
| `NotifySend.NotificationHandle.constructor` | src/notify_send.rs:48-51 | A new handle holds the given id and notification. |
| `NotifySend.NotificationHandle.UpdateFallible` | src/notify_send.rs:14-17 | It dispatches the current content with the current id as the replace target. On `Ok(newId)` the id becomes newId and it returns `Ok(())`. On `Err(e)` the id is unchanged and `Err(e)` is returned. The content never changes. |
| `NotifySend.NotificationHandle.Update` | src/notify_send.rs:19-21 | When the dispatch succeeds, the id becomes the returned id and the content is unchanged. |
| `NotifySend.ShowNotification` | src/notify_send.rs:45-52 | It dispatches with no previous id. On `Ok(id)` it returns a fresh handle whose id is `id` and whose content equals the input. On `Err(e)` it returns `Err(e)` and no handle. |

## Left out

- Starting the `notify-send` process, capturing its output and passing standard error through (src/notify_send.rs:63, 86) are operating-system I/O. Together with UTF-8 decoding of the output (line 87), they are the caller-supplied function `run`.
- The details of the wrapped errors are not modelled. This covers the `io::Error` cause, the UTF-8 error position and the `ParseIntError` kind (empty, invalid digit, overflow). Each is reduced to `ProcessError`, `EncodingError` or `ParseError`.
- NotifySend.NotificationHandle.Update: the abort (`expect`) on a failed dispatch is not modelled. Instead the method requires the dispatch to succeed.
- `show_notification_async` (src/notify_send.rs:56-60) is left out. It only wraps `show_notification` in a future and has no logic of its own.
- The `Deref`/`DerefMut` forwarding (src/notify_send.rs:29-41) is direct access to the public `notification` field.
- `id()` (src/notify_send.rs:24-26) is read access to the field `id`.
- `Notification.clone()` at line 50 is implicit, because `Notification` is a value type.
- The rest of `Notification` and `Timeout` is not part of this model, because the file reads only five fields of them. This includes urgency, hints and actions; hints and actions are marked TODO in the file.
- The `cfg` feature gates are not part of this model.
