# Sansar light fade and media chat commands, in Dafny

This project models two independent scripts of a Sansar scene-scripting
repository and proves properties of the models.

**`ObjectLightOnOff`** drives the object's scriptable light. It fades the
light to its start-up value on an "on" event and to black at zero intensity
on an "off" event. A coroutine wakes every 0.1 s and steps the fade. Enable
and disable events register and drop the on/off handlers and start and stop
the coroutine. In the model (`light_on_off.dfy`, module `LightOnOff`):

- the script's fields are an immutable `Engine` record;
- each handler is a pure transition;
- `subscriptions != null` is the flag `subscribed`;
- `interpolationCoroutine != null` is the flag `looping`;
- one pass of the `InterpolateLightColor` loop body is `Interpolate`.

`Step` delivers one event to the script. It respects what the host would
deliver:

- on/off only while the handlers are registered;
- wake-ups only while the loop runs;
- nothing at all to a script whose initialisation found no light.

The central invariant is `Inv`:

- one light is controlled;
- `0 <= time <= duration`;
- `active ==> time > 0`, so the division in the loop body is by a positive
  number;
- the loop runs exactly when the script is enabled and some direction fades.

`Step` preserves `Inv`, and `Init` establishes it.

**`MediaChatCommand`** (`media_chat_command.dfy`) reads chat lines such as
`/yt <video-id> 30` and sets the scene's media URL. `OnChat` is modelled as a
function from the access settings, the sender and the message to an
`Outcome`: `Ignore`, `Help(text)` or `SetMedia(url)`. The .NET string
operations it uses are modelled in `text.dfy`. `int.TryParse` and
`Int32.ToString` are modelled in `decimal.dfy`. Light colours and the blend
are in `colors.dfy`.

Reals stand in for `float`. The model claims nothing about rounding.

## Model

| member | source | states |
|---|---|---|
| `LightOnOff.FirstScriptable` | Examples/ScriptLibrary/Object/ObjectLightOnOff.cs:90-100 | the search stops at the first scriptable component: the index it returns is scriptable and no earlier one is; with no result, none is scriptable |
| `LightOnOff.Init` | Examples/ScriptLibrary/Object/ObjectLightOnOff.cs:86-118 | the script is inert exactly when no component is scriptable; otherwise it keeps exactly one light, the first scriptable one, whose value becomes "on"; with `TurnOffAtStart` that light holds black/0; it is enabled iff `StartEnabled`; the loop runs iff enabled and some fade time is positive, settled on the light's value; the invariant holds |
| `LightOnOff.SetAll` | Examples/ScriptLibrary/Object/ObjectLightOnOff.cs:120-126 | every light gets the same value and no light is added or dropped |
| `LightOnOff.Write` | Examples/ScriptLibrary/Object/ObjectLightOnOff.cs:120-126 | a write sets every light to the value and changes nothing else in the script's state |
| `LightOnOff.StartInterpolation` | Examples/ScriptLibrary/Object/ObjectLightOnOff.cs:158-171 | the loop starts only when not running and some fade time is positive; a fresh loop has previous = target = current light value, time = duration = 0, inactive; otherwise nothing changes |
| `LightOnOff.StopInterpolation` | Examples/ScriptLibrary/Object/ObjectLightOnOff.cs:173-180 | afterwards the loop is not running, and nothing else changes |
| `LightOnOff.Subscribe` | Examples/ScriptLibrary/Object/ObjectLightOnOff.cs:182-227 | afterwards the handlers are registered and the loop runs iff it ran or some fade time is positive; with handlers and loop already present the state is unchanged |
| `LightOnOff.Unsubscribe` | Examples/ScriptLibrary/Object/ObjectLightOnOff.cs:229-238 | afterwards no handler is registered and the loop is stopped; nothing else changes |
| `LightOnOff.Trigger` | Examples/ScriptLibrary/Object/ObjectLightOnOff.cs:188-221 | with a positive fade time: a fade from the current value to the target, time = duration = fade time, active, lights untouched; otherwise inactive, every light shows the target, the rest of the fade record kept |
| `LightOnOff.OnTurnOn` | Examples/ScriptLibrary/Object/ObjectLightOnOff.cs:186-203 | the on-handler fades from the current value to the start-up value over `TurnOnFadeTime`, or writes the start-up value at once when that time is not positive |
| `LightOnOff.OnTurnOff` | Examples/ScriptLibrary/Object/ObjectLightOnOff.cs:205-222 | the off-handler fades from the current value to black/0 over `TurnOffFadeTime`, or writes black/0 at once when that time is not positive |
| `LightOnOff.Interpolate` | Examples/ScriptLibrary/Object/ObjectLightOnOff.cs:142-153 | an idle wake-up changes nothing; otherwise time drops by 0.1 clamped at 0; the fade stays active iff time is left; every light gets `previous*t + target*(1-t)` with `t = time/duration`, between previous and target; the wake-up that reaches 0 writes exactly the target; the fade invariant is kept |
| `LightOnOff.Step` | Examples/ScriptLibrary/Object/ObjectLightOnOff.cs:182-238 | every event keeps the invariant and never changes the configuration or start-up value; wake-ups without a running loop and on/off events without registered handlers change nothing |
| `LightOnOff.Run` | Examples/ScriptLibrary/Object/ObjectLightOnOff.cs:182-238 | the invariant holds after any sequence of events |
| `LightOnOff.Max` | Examples/ScriptLibrary/Object/ObjectLightOnOff.cs:144 | `Math.Max`: the result is one of the two arguments and at least both |
| `LightOnOff.LoopIffFading` | Examples/ScriptLibrary/Object/ObjectLightOnOff.cs:128-131 | `HasFadeTime`: after any events the configuration is unchanged and the loop runs exactly while enabled with some fade time positive; with both fades instant it never runs |
| `LightOnOff.Ticks` | Examples/ScriptLibrary/Object/ObjectLightOnOff.cs:138-155 | any number of wake-ups keeps the fade invariant, the number of lights and the fade's endpoints and duration |
| `LightOnOff.TicksToFinish` | Examples/ScriptLibrary/Object/ObjectLightOnOff.cs:135-144 | the number of wake-ups a fade takes is `ceil(d / 0.1)`: the least `n` with `n * 0.1 >= d` |
| `LightOnOff.SubscribeIdempotent` | Examples/ScriptLibrary/Object/ObjectLightOnOff.cs:182-227 | enabling twice is the same as enabling once |
| `LightOnOff.UnsubscribeIdempotent` | Examples/ScriptLibrary/Object/ObjectLightOnOff.cs:229-238 | disabling twice is the same as disabling once |
| `LightOnOff.EnableGating` | Examples/ScriptLibrary/Object/ObjectLightOnOff.cs:225-226 | after an enable the loop runs iff some fade time is positive, and a second enable changes nothing |
| `LightOnOff.DisableGating` | Examples/ScriptLibrary/Object/ObjectLightOnOff.cs:229-238 | after a disable no handler is registered and no loop runs, and a second disable changes nothing |
| `LightOnOff.DisabledIsQuiescent` | Examples/ScriptLibrary/Object/ObjectLightOnOff.cs:229-238 | a disabled script ignores every on, off, disable and wake-up event, so a fade stopped mid-way stays frozen |
| `LightOnOff.Countdown` | Examples/ScriptLibrary/Object/ObjectLightOnOff.cs:144 | after `k` wake-ups with time still left, exactly `k * 0.1` has been taken off and the fade is still active |
| `LightOnOff.FadeCompletes` | Examples/ScriptLibrary/Object/ObjectLightOnOff.cs:144-153 | a fade with `d` seconds left is active after `ceil(d/0.1) - 1` wake-ups, and over after `ceil(d/0.1)` with every light exactly on the target |
| `LightOnOff.TwoSecondFade` | Examples/ScriptLibrary/Object/ObjectLightOnOff.cs:135 | a 2 s fade takes 20 wake-ups (in exact arithmetic) |
| `LightOnOff.TurnOnLandsOnInitial` | Examples/ScriptLibrary/Object/ObjectLightOnOff.cs:188-197 | on an enabled script, turning on with a positive fade time starts from the value shown, without a jump, and ends exactly on the start-up value after `ceil(TurnOnFadeTime/0.1)` wake-ups |
| `LightOnOff.ZeroFadeKeepsTime` | Examples/ScriptLibrary/Object/ObjectLightOnOff.cs:198-215 | an instant trigger during a fade leaves the fade inactive with time left, so `active` is not `time > 0` |
| `Colors.Blend` | Examples/ScriptLibrary/Object/ObjectLightOnOff.cs:146-149 | `previous*t + target*(1-t)` is the target at `t = 0`, the previous value at `t = 1`, and channel by channel between the two for `t` in `[0,1]` |
| `Text.Split` | Users/leslie-linden/commands/MediaChatCommand.cs:46 | `String.Split` always yields at least one piece and no piece contains the separator |
| `Text.JoinSplit` | Users/leslie-linden/commands/MediaChatCommand.cs:46 | joining the pieces with the separator gives back the input |
| `Text.SplitJoin` | Users/leslie-linden/commands/MediaChatCommand.cs:86 | splitting words joined with a separator gives back the words when no word holds it |
| `Text.SplitCount` | Users/leslie-linden/commands/MediaChatCommand.cs:86-89 | there is one more piece than separators, so the piece count is never below one |
| `Text.SplitIntoSeveral` | Users/leslie-linden/commands/MediaChatCommand.cs:96 | a message has a second word exactly when it contains a space |
| `Text.StartsWithIsPrefix` | Users/leslie-linden/commands/MediaChatCommand.cs:118 | `StartsWith` (ordinal): a text starts with a prefix exactly when it is the prefix followed by the rest |
| `Text.StartsWithConcat` | Users/leslie-linden/commands/MediaChatCommand.cs:118 | `StartsWith`: every extension of a prefix starts with it |
| `Text.Trim` | Users/leslie-linden/commands/MediaChatCommand.cs:49 | the result neither starts nor ends with white space and is no longer than the input |
| `Text.TrimMargins` | Users/leslie-linden/commands/MediaChatCommand.cs:49 | the trim is a piece of the input with only white space around it |
| `Text.TrimEmpty` | Users/leslie-linden/commands/MediaChatCommand.cs:49-50 | the trim is empty exactly when the input is all white space |
| `Text.TrimUnique` | Users/leslie-linden/commands/MediaChatCommand.cs:49 | a trimmed text padded with white space on both sides trims back to itself |
| `MediaChatCommand.TrimEntry` | Users/leslie-linden/commands/MediaChatCommand.cs:49-50 | `IsBlank` (`IsNullOrWhiteSpace`): an entry's trim is blank iff the entry is; a non-blank entry's trim is non-empty, trimmed and comma-free |
| `MediaChatCommand.EntrySetMembers` | Users/leslie-linden/commands/MediaChatCommand.cs:44-56 | the set built so far holds exactly the trims of the non-blank entries seen |
| `MediaChatCommand.SplitStringIntoHashSet` | Users/leslie-linden/commands/MediaChatCommand.cs:42-57 | every member is a non-empty, trimmed, comma-free trim of some comma-separated entry, and every non-blank entry's trim is a member |
| `MediaChatCommand.IsAccessAllowed` | Users/leslie-linden/commands/MediaChatCommand.cs:59-78 | unrestricted access always allows; restricted access denies a missing sender, and otherwise allows iff the sender created the scene or its handle is allowed |
| `MediaChatCommand.Lookup` | Users/leslie-linden/commands/MediaChatCommand.cs:93 | a key is found iff some table entry has it, and the value found is that entry's |
| `MediaChatCommand.CommandNames` | Users/leslie-linden/commands/MediaChatCommand.cs:26-37 | a word is a key of the command table exactly when it is one of `/help`, `/media`, `/yt`, `/youtube`, `/ytlive`, `/ytpl`, `/twitch`, `/twitchv`, `/vimeo` |
| `MediaChatCommand.CommandsOneLine` | Users/leslie-linden/commands/MediaChatCommand.cs:28-36 | no command or usage text of the table holds a newline, so each help entry is one line |
| `MediaChatCommand.HelpLinesSplit` | Users/leslie-linden/commands/MediaChatCommand.cs:98-102 | header plus usage lines reads back, line by line, as the header and then one line per entry |
| `MediaChatCommand.HelpTextLines` | Users/leslie-linden/commands/MediaChatCommand.cs:96-102 | `HelpText`: the help reply is "MediaChatCommand usage:" followed by one `key usage` line per table entry, in table order |
| `MediaChatCommand.OnChat` | Users/leslie-linden/commands/MediaChatCommand.cs:80-166 | a denied sender or a first word outside the table is ignored; the help text is the reply exactly for a permitted known command that is `/help` or has no second word; media is set exactly for a permitted known command other than `/help` on a line with a space |
| `MediaChatCommand.LeadingSpaceIgnored` | Users/leslie-linden/commands/MediaChatCommand.cs:86-94 | a line starting with a space has an empty first word and is ignored |
| `MediaChatCommand.MediaDispatch` | Users/leslie-linden/commands/MediaChatCommand.cs:96-121 | a permitted known command other than `/help` with an argument sets the URL computed from its words |
| `MediaChatCommand.MediaVerbatim` | Users/leslie-linden/commands/MediaChatCommand.cs:116-121 | `MediaUrl`, verbatim case: `/media`, or an argument starting with "http", sets the argument verbatim, ahead of every template |
| `MediaChatCommand.CommandUrls` | Users/leslie-linden/commands/MediaChatCommand.cs:122-160 | `MediaUrl` past the verbatim case (see `MediaVerbatim`), command by command: `/yt` and `/youtube` give the embed URL with the id in both places followed by the start-time suffix of a third word; `/ytlive`, `/ytpl`, `/twitch`, `/twitchv` and `/vimeo` each give their own format string with the argument in place of `{0}` |
| `MediaChatCommand.ServiceUrl` | Users/leslie-linden/commands/MediaChatCommand.cs:136-160 | a service command sets its template filled with the argument, and the URL determines the argument |
| `MediaChatCommand.ServiceDispatch` | Users/leslie-linden/commands/MediaChatCommand.cs:136-160 | a permitted service command whose argument does not start with "http" sets its template filled with the argument |
| `MediaChatCommand.TemplateInjective` | Users/leslie-linden/commands/MediaChatCommand.cs:122-160 | for every command with a template, the URL determines the argument it was filled with |
| `MediaChatCommand.YouTubeStart` | Users/leslie-linden/commands/MediaChatCommand.cs:122-134 | `/yt` and `/youtube` with a third word set the YouTube URL followed by the start-time suffix |
| `MediaChatCommand.StartSuffix` | Users/leslie-linden/commands/MediaChatCommand.cs:127-134 | the suffix is empty when the word does not parse; otherwise it is `&start=` followed by the parsed value rendered by `Int32.ToString` (so `+030` gives `&start=30`), which parses back to the same value |
| `MediaChatCommand.TemplatesCoverCommands` | Users/leslie-linden/commands/MediaChatCommand.cs:122-160 | `Template`, the `else if` chain: every command except `/help` and `/media` has a template, and only commands do; `/yt` and `/youtube` substitute twice, the others once |
| `MediaChatCommand.YouTubeUrl` | Users/leslie-linden/commands/MediaChatCommand.cs:125 | the YouTube URL is the format string with the video id in both places |
| `MediaChatCommand.TwoHoles` | Users/leslie-linden/commands/MediaChatCommand.cs:125 | filling a template with two `{0}` puts the argument in both places |
| `MediaChatCommand.TemplateHoles` | Users/leslie-linden/commands/MediaChatCommand.cs:125-159 | the YouTube format string substitutes twice, the other five once |
| `MediaChatCommand.ServiceUrls` | Users/leslie-linden/commands/MediaChatCommand.cs:139-159 | each other service URL is its format string with the argument in place of `{0}` |
| `MediaChatCommand.OneHole` | Users/leslie-linden/commands/MediaChatCommand.cs:139 | filling a one-hole template puts the argument between its two texts |
| `MediaChatCommand.FormatLength` | Users/leslie-linden/commands/MediaChatCommand.cs:125 | `Format` (`string.Format` with `{0}` only): a filled template's length is its literal text plus one argument per hole |
| `MediaChatCommand.FormatInjective` | Users/leslie-linden/commands/MediaChatCommand.cs:125-159 | two arguments that give the same URL through a template with a hole are equal |
| `Decimal.ParseInt32` | Users/leslie-linden/commands/MediaChatCommand.cs:130 | a parsed value fits in a signed 32-bit integer |
| `Decimal.ParseSigned` | Users/leslie-linden/commands/MediaChatCommand.cs:130 | once white space is trimmed, a parsed value fits in a signed 32-bit integer |
| `Decimal.ParseNegativeDigits` | Users/leslie-linden/commands/MediaChatCommand.cs:130 | '-' followed by digits parses to minus their value whenever that fits in 32 bits |
| `Decimal.IntToString` | Users/leslie-linden/commands/MediaChatCommand.cs:132 | the rendering starts with '-' exactly for negative values, and the rest is the canonical numeral (digits, no leading zero) of the magnitude |
| `Decimal.CanonicalUnique` | Users/leslie-linden/commands/MediaChatCommand.cs:132 | each number has exactly one canonical numeral, so the contract of `IntToString` fixes its output |
| `Decimal.NatToDecimal` | Users/leslie-linden/commands/MediaChatCommand.cs:132 | the rendering of a natural number is all digits with no leading zero |
| `Decimal.DigitsValueOfDecimal` | Users/leslie-linden/commands/MediaChatCommand.cs:132 | reading a rendered natural number back gives the number |
| `Decimal.ParseRendered` | Users/leslie-linden/commands/MediaChatCommand.cs:130-132 | every 32-bit value parses back from its rendering |
| `Decimal.ParseExample` | Users/leslie-linden/commands/MediaChatCommand.cs:130-132 | the word "+030" parses to 30, and 30 renders as "30" |
| `Colors.Mix` | Examples/ScriptLibrary/Object/ObjectLightOnOff.cs:148-149 | one channel of the blend is `q` at `t = 0`, `p` at `t = 1`, and between `p` and `q` for `t` in `[0,1]` |
| `Colors.MixBetween` | Examples/ScriptLibrary/Object/ObjectLightOnOff.cs:148-149 | `p*t + q*(1-t)` lies between `p` and `q` for every `t` in `[0,1]` |
| `Text.TrimOfTrimmed` | Users/leslie-linden/commands/MediaChatCommand.cs:49 | trimming a text with no white space at either end gives it back |
| `Text.TrimKeepsOut` | Users/leslie-linden/commands/MediaChatCommand.cs:46-49 | trimming introduces no character, so a trimmed comma-separated entry holds no comma |
| `MediaChatCommand.UsageLines` | Users/leslie-linden/commands/MediaChatCommand.cs:99-102 | one usage line per table entry, in table order, each `key usage` |
| `MediaChatCommand.HelpIsJoin` | Users/leslie-linden/commands/MediaChatCommand.cs:98-102 | `HelpLines`: appending `"\n" + key + " " + usage` for each entry is joining header and usage lines with newlines |
| `MediaChatCommand.ChatWords` | Users/leslie-linden/commands/MediaChatCommand.cs:86 | a message made of space-free words joined by spaces splits back into exactly those words |
| `MediaChatCommand.FormatLonger` | Users/leslie-linden/commands/MediaChatCommand.cs:125-159 | a longer argument never gives a shorter URL, and gives a strictly longer one when the template has a hole |
| `MediaChatCommand.FormatSameLength` | Users/leslie-linden/commands/MediaChatCommand.cs:125-159 | two arguments of equal length giving the same URL through a template with a hole are equal |

Notes on the code as written:

- `SimpleInit` stops searching after the first scriptable light, so the
  script controls at most one light. `SetColorAndIntensityOfAllLights` still
  loops over a list that has one entry.
- `active` is not the same as `time > 0`. An instant trigger clears
  `active` but leaves the fade time as it was, as `ZeroFadeKeepsTime`
  shows. What the loop body needs, and what the model keeps, is the
  weaker `active ==> time > 0`.
- Enabling after a disable that stopped a fade mid-way restarts the loop
  settled at the light's current value (`StartInterpolation`). The
  interrupted fade is abandoned.
- `chatWords.Length < 1` never holds: `Split` always yields at least one
  piece (`Text.Split`).

## Left out

- Host calls are replaced by inputs or outcomes:
  - `ObjectPrivate.GetComponentCount`/`GetComponent` become a sequence of `LightComponent` values;
  - `FindAgent` becomes an optional `Agent`;
  - `SendChat` and `OverrideMediaSource` become the `Outcome` returned;
  - `Log.Write` is dropped.
- `SubscribeToAll` belongs to the host's `ObjectBase` and is not part of this model. It registers a handler under each name of a comma-separated event list. The model has one event per kind (`Enable`, `Disable`, `TurnOn`, `TurnOff`).
- Coroutines (`StartCoroutine`, `Wait`, `Abort`) become the `looping` flag plus a `Tick` event handled atomically. Wall-clock time and scheduling are not modelled.
- `float` becomes `real`. Rounding is not modelled. Under IEEE single precision, repeated subtraction of 0.1 need not reach zero after exactly `ceil(d/0.1)` steps.
- Reading a light back (`GetNormalizedColor`, `GetRelativeIntensity`) is taken to return the last value written. Colour normalisation and writes by other scripts are not modelled.
- `Sansar.Color` internals are not part of this model. `Color.Black` is taken as opaque black (0,0,0,1). `default(Color)` is taken as all zeros. Multiplying a colour by a number is taken to scale all four channels.
- Exceptions are collapsed into `Outcome`. A throttled `OverrideMediaSource`, and a sender that has left (`SendChat` on a missing agent), are not distinguished from success. `Help(text)` means "reply to the sender if there is one".
- `int.TryParse` is modelled without culture settings: ASCII `+`/`-` and digits, the surrounding white space of `NumberStyles.Integer`, and the 32-bit range. Trailing NUL characters and culture-specific signs are not modelled. Likewise `Int32.ToString`, which renders the start time in `"&start=" + startTime`, is modelled by `Decimal.IntToString` with an ASCII `-` for negative values, not the current culture's negative sign.
- `StartsWith("http")` is culture-sensitive in .NET. It is modelled as an ordinal prefix test.
- The order of help lines assumes `Dictionary` enumerates entries in declaration order. .NET does not guarantee that order.
- The success and throttle chat messages and the log lines after `OverrideMediaSource` are not modelled.
