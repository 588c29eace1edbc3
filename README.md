# Hipslacker in Dafny

Hipslacker is a Slack bot that turns a chat command such as
`@hipslacker generate a microservice with mongodb named my-app port 9090`
into a JHipster Online generation request, then reports the progress of the
generation back into the channel. This project models the bot's core and
proves properties of that model:

- `HipSlacker` (`hipslacker.dfy`, `payload.dfy`). The object built for one
  command. It holds:
  - the routing string (the text between the first and the second mention,
    stripped and lower-cased);
  - the token list (the whole event text split on whitespace runs);
  - the payload dictionary and the git provider, which `generate_payload`
    and the `set_*` helpers update in place.

  `process_command`, `generate_application`, `post_generation_status` and the
  `post_*` helpers are methods of a `HipSlacker` class that posts through a
  `SlackClient` object. That object is a log of `(channel, text)` posts.
- The event filter of `bot.py` (`bot.dfy`). `parse_slack_output` goes
  through a batch of real-time events and hands each event meant for the
  bot to `handle_command`. `handle_command` builds a fresh `HipSlacker` on
  the shared client.

The world outside the process is a `Network` value:
- the answer of the Slack `users.info` lookup, as a username or its failure;
- the authentication reply;
- the submit reply;
- the reply to the k-th status request;
- the start time of polling and the clock reading at the k-th timeout test,
  in milliseconds.

The only requirement on the clock is what the half-second sleep guarantees:
readings never come before the start, and two successive tests are at
least 500 ms apart.

Each method is proved against a specification function of the inputs and
the old state:
- `Build` for `generate_payload`;
- `PollFrom` for `post_generation_status`;
- `GenerateRun`, `ProcessRun` and `CommandRun` for the routing;
- `BatchRun` for the event loop.

Lemmas then state what the bot promises about those functions.

`payload.dfy` gives a second, independent description of `generate_payload`:
a field-by-field keyword table (`Expected`). `FoldMatchesTable` proves that
the token loop agrees with it after every prefix of the tokens.

Where the code differs from what its help text and names suggest, the model
follows the code:
- Tokens are not lower-cased, so keywords match case-sensitively. Only the
  routing string is lower-cased.
- `named` and `port` take the argument of their FIRST occurrence (`list.index`).
  A repeated keyword re-applies the first argument; the last one does not win.
- A `port` argument that `int()` rejects raises `ValueError`. Nothing catches
  it: `process_command` ends with the exception after the acknowledgement,
  and so does the event loop. No error message is posted.
- There is no reconnect backoff in the code. Reconnection is left to the
  Slack library (`auto_reconnect=True`).

## Model

| member | source | states |
|---|---|---|
| Text.SplitWs | hipslacker.py:43 | `re.split("\s+", text)` yields at least one piece and no piece holds whitespace (leading or trailing whitespace gives an empty piece) |
| Text.SplitWsRoundTrip | hipslacker.py:43 | the text is its pieces with the cut whitespace runs between them; every run is non-empty and all whitespace; every piece but the first and the last is non-empty; the first (last) piece is empty exactly when the text is empty or starts (ends) with whitespace |
| Text.SplitWsOfInterleave | hipslacker.py:43 | the split is unique: whitespace-free pieces, non-empty inside, joined by non-empty whitespace runs, split back into exactly those pieces |
| Payload.ExampleSplit | hipslacker.py:43 | the message `<@U0BOT> generate microservice with mongodb named demo port 9090` splits into its nine words |
| Text.SplitWsKeepsText | hipslacker.py:43 | the pieces, joined, are exactly the non-whitespace characters of the text in order: splitting drops only separators and alters no character (so no lower-casing) |
| Text.IndexOf | hipslacker.py:35 | finds an occurrence iff the marker occurs, and the one found is the first |
| Text.SecondField | hipslacker.py:35 | `split(AT_BOT)[1]` starts right after the first marker and runs up to the next position where the marker starts (or the end): no marker starts inside it, and it holds no marker |
| Text.SecondFieldIsField | hipslacker.py:35 | any text that starts right after the first marker and ends at the next marker start (or the end) is `split(AT_BOT)[1]`: the field is unique |
| Text.SecondFieldOverlap | hipslacker.py:35 | `"aaxaaa".split("aa")[1]` is `x`: the field ends where the next occurrence starts |
| Text.Strip | hipslacker.py:35 | `strip()` removes only whitespace, from both ends, and leaves no whitespace at either end |
| Text.Lower | hipslacker.py:35 | `lower()` keeps the length, turns each upper-case ASCII letter into its lower-case letter (code + 32), changes no other character and keeps whitespace where it was |
| Text.ParseInt | hipslacker.py:171 | `int(token)` succeeds exactly on one to 4300 ASCII digits with an optional leading `+` or `-`; the value is the digits' decimal value, negated after `-`; a longer numeral raises, as under Python's default integer string conversion limit |
| Text.ParseIntExamples | hipslacker.py:171 | `0080` is 80, `+0` is 0, `-7` is -7; the empty text, a lone `+`, `--1`, `1-`, `80a` and a numeral of 4301 ones are rejected |
| Text.ParseIntDecimal | hipslacker.py:171 | `int()` reads back every decimal numeral of at most 4300 digits, unsigned, with `-` and with `+` |
| Hipslacker.RoutingString | hipslacker.py:35 | the routing string has no upper-case letter and starts and ends with a non-whitespace character (or is empty) |
| Payload.FirstIndex | hipslacker.py:159 | `commands.index(x)` is a position of `x` with no earlier `x` |
| Payload.LastOfIsLast | hipslacker.py:120-135 | the keyword a group ends on occurs at some position with no keyword of the group after it; there is none exactly when no token is a keyword of the group |
| Payload.StepMatchesTable | hipslacker.py:120-143 | one pass of the loop body moves the keyword table's answer from the first n tokens to the first n+1 |
| Payload.FoldMatchesTable | hipslacker.py:119-143 | after every prefix of the tokens the loop has raised exactly when the first `port` lies in it with a non-integer argument, and otherwise every field holds the table's value |
| Payload.GeneratePayloadTable | hipslacker.py:119-151 | `generate_payload` on the defaults raises exactly when `int()` rejects the argument of the first `port`, with that token; otherwise: application type is the last one given (else monolith); database fields come from the last database keyword; base name and port come from the first `named` / `port`; provider is gitlab iff `gitlab` occurs; repository name, git provider, package name and folder are derived from these; git company and all other fields keep their defaults |
| Payload.NoKeywordKeepsDefaults | hipslacker.py:46-151 | without any keyword the payload is the default one, with repository name my-awesome-app, provider github, package `io.github.<user>` and folder `io/github/<user>/` |
| Payload.ExampleCommand | hipslacker.py:119-171 | `generate microservice with mongodb named demo port 9090` gives microservice, mongodb in all three database fields, base and repository name demo, port 9090 |
| Payload.FirstNamedWins | hipslacker.py:158-161 | `named alpha named beta` gives base name alpha |
| Payload.NamedArgumentIsScanned | hipslacker.py:120-135 | the token consumed by `named` is still tested as a keyword: `named mongodb` also selects mongodb |
| Payload.KeywordsAreCaseSensitive | hipslacker.py:120-143 | `Gateway MongoDB GitLab` changes neither application type, database nor provider |
| Payload.TrailingKeywordKeepsDefault | hipslacker.py:158-171 | `named` or `port` as the last token keeps the default name or port |
| Payload.BadPortRaises | hipslacker.py:168-171 | `port 80a` makes the whole pass raise a ValueError on `80a` |
| Payload.LastDatabaseWins | hipslacker.py:129-135 | `mysql cassandra` sets all three database fields to cassandra |
| Payload.LastSqlDatabaseWins | hipslacker.py:129-135 | `mongodb postgresql` gives (sql, h2Disk, postgresql) |
| Hipslacker.HipSlacker.constructor | hipslacker.py:32-79 | the object holds the client, channel and user as given, the routing string, the token list, the default payload and the github provider |
| Hipslacker.HipSlacker.SetApplicationType | hipslacker.py:155-156 | only the application type changes, to the value given |
| Hipslacker.HipSlacker.SetAppName | hipslacker.py:158-161 | the base name becomes the token after the first `named` when there is one; nothing else changes |
| Hipslacker.HipSlacker.SetDatabase | hipslacker.py:163-166 | the three database fields change together and nothing else |
| Hipslacker.HipSlacker.SetPort | hipslacker.py:168-171 | the port becomes `int()` of the token after the first `port`; when `int()` rejects it, the method raises and the payload is unchanged |
| Hipslacker.HipSlacker.GeneratePayload | hipslacker.py:119-153 | the loop over the tokens and the derived fields compute `Build`: raises exactly when `Build` fails, with its error; otherwise the payload and provider are `Build`'s |
| Payload.FailurePersists | hipslacker.py:138-139 | once `int()` has raised, no later token changes the outcome |
| Hipslacker.PollRunShape | hipslacker.py:189-221 | polling stops at the first poll with a verdict (status error, finished, failed, timeout, in that order) and no earlier; every successful poll posts its raw text first; the last message is the closing one; a failed request posts only its error |
| Hipslacker.PollStep | hipslacker.py:190-221 | one poll: a non-200 reply posts only the status error; a verdict posts the text and the closing message; otherwise the text is posted and polling goes on |
| Hipslacker.ClockBound | hipslacker.py:221 | after k sleeps the clock has advanced by at least 500·k ms |
| Hipslacker.PollsBounded | hipslacker.py:189-221 | polling makes at most 122 status requests |
| Hipslacker.FinishedTakesPrecedence | hipslacker.py:205-214 | at any poll before the deadline, a status holding both markers counts as finished: its text and then the link message are posted, and polling stops |
| Hipslacker.GeneratedLink | hipslacker.py:99-117 | with a parsing port, a usable token and a 201 submit, a fresh command polls with the link `https://<provider>.com/<user>/<baseName>` where provider is gitlab iff the token `gitlab` occurs (else github) and the base name is the argument of the first `named` (else the default) |
| Hipslacker.TokenGate | hipslacker.py:173-183 | with the payload built and a submit that would be accepted, the command posts only the fail message exactly when the authentication reply is not a 200 with a non-empty `id_token` |
| Text.ContainsIsSubstring | bot.py:48 | the `in` test holds exactly when the text is some text, the pattern, then some text |
| Text.StartsWithIsPrefix | hipslacker.py:91 | `startswith(p)` holds exactly when the text is `p` followed by some text |
| Hipslacker.NoMarkerTimesOut | hipslacker.py:216-219 | without markers, polling ends on the first timeout test strictly after start + 60 s, with one timeout message after the raw texts |
| Hipslacker.InProgressThenFinished | hipslacker.py:201-208 | "in progress" then "finished" posts both texts, then the link |
| Hipslacker.HipSlacker.PostGenerationStatus | hipslacker.py:185-221 | the posts made by the polling loop are exactly `PollFrom`'s messages, in order, in the command's channel |
| Hipslacker.LookupFailureStops | hipslacker.py:83-88 | a failed username lookup posts exactly one message, without the username, and completes |
| Hipslacker.RoutingDecision | hipslacker.py:91-97 | the first message is the acknowledgement iff the routing string starts with `generate ` (with its space); otherwise the help message is the only one |
| Hipslacker.RejectedJobNeverPolls | hipslacker.py:103-117 | no usable token, or a submit answered other than 201, posts only the fail message and never polls |
| Hipslacker.BadPortEscapes | hipslacker.py:99-100 | a payload error posts only the acknowledgement and leaves with the exception |
| Hipslacker.HipSlacker.ProcessCommand | hipslacker.py:81-97 | the posts and the outcome are those of `ProcessRun`; the username becomes the looked-up one when the lookup succeeds; on a failed lookup or the help path payload and provider are unchanged; on the generate path they become `Build`'s when it succeeds |
| Hipslacker.HipSlacker.GenerateApplication | hipslacker.py:99-117 | the posts and the outcome are those of `GenerateRun`; when `Build` succeeds the payload and provider are `Build`'s |
| Hipslacker.HipSlacker.PostFailMsg | hipslacker.py:223-224 | posts the fail message addressed to the user |
| Hipslacker.HipSlacker.PostWithUsername | hipslacker.py:226-227 | posts `Yo <@username>, ` followed by the message |
| Hipslacker.HipSlacker.PostMsg | hipslacker.py:229-230 | appends one post to the command's channel |
| Hipslacker.SlackClient.PostMessage | hipslacker.py:230 | the client's log grows by exactly that post |
| Bot.Classify | bot.py:46-49 | an event is dispatched iff it has a `text` that contains the mention, a `user` other than the bot, and a `channel`; the command carries the text, channel and user unchanged; a mentioning event without `user` raises KeyError on `user`; one from another user without `channel` raises KeyError on `channel`; an event from the bot itself is ignored |
| Bot.BatchFollowsFilter | bot.py:46-49 | the dispatched commands are a prefix of the filtered events in input order, each once; the batch completes iff no event from there on raises, and then it dispatched exactly the filtered events |
| Bot.UnmentionedBatchIsSilent | bot.py:48 | events that do not mention the bot post nothing and dispatch nothing |
| Bot.HandleCommand | bot.py:32-38 | a fresh `HipSlacker` with the text, channel and user unchanged processes the command once: the posts and the outcome are those of `CommandRun` |
| Bot.HandleEvent | bot.py:47-49 | one event of the loop: the verdict is `Classify`'s; a skipped event posts nothing, a missing key raises KeyError and posts nothing, a dispatched event posts exactly its command's messages to its channel with its outcome |
| Bot.ParseSlackOutput | bot.py:41-49 | None or an empty batch does nothing; otherwise the posts, the dispatched commands and the outcome are those of `BatchRun` |

## Left out

- HTTP traffic: Slack `users.info`, JHipster Online authenticate, generate and
  status, and `api_call`. Each request is replaced by its reply in `Network`.
  The request URLs, headers and bodies are not modelled.
- `json.dumps` of the payload and all logging: formatting and I/O only.
- `time.time()` and `time.sleep(0.5)`. They are replaced by integer millisecond
  readings `clock(k)` that grow by at least 500 per poll. A float clock is
  not modelled.
- `get_token` raising KeyError when a 200 reply has no `id_token`. The model
  treats a usable token as a 200 reply with a non-empty `id_token`.
- An exception raised by the generate or status request itself (a connection
  error) is not modelled.
- `run()` and `rtm_connect` (bot.py:52-62). This is an endless read-and-sleep
  loop over the socket. Each of its passes is one `ParseSlackOutput`.
- Reconnect backoff: the code has none, so none is modelled.
- getJhipsterOnlineToken.py (a one-off network script) is not part of this
  model.
- constants.py only loads settings from the environment. The mention
  marker, bot id and JHipster Online user are the `Settings` parameters.
  constants.py defines no `AT_BOT`, although both files read it; the model
  takes the marker as a setting rather than modelling that AttributeError.
- Events are maps from keys to strings. Slack fields of other types, and an
  event that is not a dictionary, are not modelled.
- Text.Lower: lower-cases ASCII letters only, where Python's `lower()` also
  lowers other Unicode letters. The routing decision (`startswith("generate ")`)
  does not depend on this.
- Text.ParseInt: accepts an optional sign and one to 4300 ASCII digits. The
  underscores and non-ASCII digits that `int()` also accepts are not modelled.
  Surrounding whitespace cannot occur in a token. The 4300-digit limit is
  Python's default since 3.11 (and the 3.7-3.10 security releases); a limit
  changed with `sys.set_int_max_str_digits`, or an older Python without one,
  is not modelled.
- Hipslacker.RoutingString: its contract gives the shape of the routing
  string: lower-case, with no surrounding whitespace. Its tie to the event
  text is stated by the contracts of Text.SecondField (the field after the
  first marker), Text.Strip (only surrounding whitespace removed) and
  Text.Lower (each upper-case letter lowered, nothing else changed), which it
  composes.
- Hipslacker.HipSlacker.ProcessCommand: when `int()` raises, the payload
  fields set by the tokens before the failing one are not stated; the object
  is not used again after the exception. Hipslacker.HipSlacker.GenerateApplication
  and Hipslacker.HipSlacker.GeneratePayload leave it out for the same reason.
- The authenticate request itself raising (a connection error), or a 200
  reply whose body is not JSON (hipslacker.py:178-183), is not modelled: the
  model always receives an `AuthReply`.
- An empty mention marker: `split("")` raises ValueError there.
  `ValidSettings` excludes an empty marker, so that error is not modelled.
