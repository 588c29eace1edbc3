/** `HipSlacker`: one chat command, from the routing decision to the
    messages posted back into the channel. The remote services are replaced
    by the replies they give (`Network`), the wall clock by millisecond
    readings, and the Slack client by a log of posted messages. */
module Hipslacker {
  import opened Text
  import opened Payload

  /** Process-wide settings: the mention marker `<@BOTID>`, the bot's user
      id, and the JHipster Online account. */
  datatype Settings = Settings(atBot: string, botId: string, onlineUser: string)

  predicate ValidSettings(s: Settings) {
    |s.atBot| > 0
  }

  /** An HTTP reply: status code and body text. */
  datatype Reply = Reply(status: int, text: string)

  /** The reply of the authentication endpoint: status code and `id_token`. */
  datatype AuthReply = AuthReply(status: int, idToken: string)

  /** Everything the outside world answers while one command is processed.
      `userName` is None when the users.info request or its JSON lookup
      raises. `poll(k)` answers the k-th status request; `start` is the time
      when polling starts and `clock(k)` the time read at the timeout test of
      the k-th poll, in milliseconds. */
  datatype Network = Network(
    userName: Option<string>,
    auth: AuthReply,
    submit: Reply,
    poll: nat -> Reply,
    start: int,
    clock: nat -> int)

  /** Between two timeout tests the loop sleeps half a second. */
  predicate Tick(net: Network, k: nat) {
    net.clock(k + 1) >= net.clock(k) + 500
  }

  ghost predicate ClockOk(net: Network) {
    net.clock(0) >= net.start && forall k: nat :: Tick(net, k)
  }

  const PollLimit := 60000  // milliseconds
  const FinishedMarker := "Generation finished"
  const FailedMarker := "Generation failed"

  function Deadline(net: Network): int {
    net.start + PollLimit
  }

  const UsernameErrorMsg := "I was unable to get your username :boom:"
  const RequestMsg := "I got your request to generate an application"
  const HelpMsg := "to get started give me a generate command (ex: `@hipslacker generate a microservice with mongodb named my-awesome-app`)"
  const FailMsg := "I was not able to generate the application :boom:"
  const StatusErrorMsg := "error while getting generation's status :boom:"
  const TimeoutMsg := "the generation timed out :boom:"

  /** `post_with_username`. */
  function WithUsername(username: string, msg: string): string {
    "Yo <@" + username + ">, " + msg
  }

  function LinkMsg(provider: string, onlineUser: string, baseName: string): string {
    "here the link of your application: https://" + provider + ".com/" + onlineUser + "/" + baseName
  }

  /** `self.command`: the text between the first and the second mention
      (`SecondField`), stripped and lower-cased. */
  function RoutingString(text: string, atBot: string): (r: string)
    requires |atBot| > 0 && Contains(text, atBot)
    ensures forall i :: 0 <= i < |r| ==> !('A' <= r[i] <= 'Z')
    ensures r == [] || (!IsSpace(r[0]) && !IsSpace(r[|r| - 1]))
  {
    Lower(Strip(SecondField(text, atBot)))
  }

  datatype PollEnd = Finished | GenerationFailed | TimedOut | StatusError

  /** The checks of one poll, in the order the loop makes them: a failed
      request, the "finished" marker, the "failed" marker, then the timeout
      (strictly after the deadline). None means: poll again. */
  function PollVerdict(net: Network, k: nat): Option<PollEnd> {
    var reply := net.poll(k);
    if reply.status != 200 then Some(StatusError)
    else if Contains(reply.text, FinishedMarker) then Some(Finished)
    else if Contains(reply.text, FailedMarker) then Some(GenerationFailed)
    else if net.clock(k) > Deadline(net) then Some(TimedOut)
    else None
  }

  /** The message that closes a poll run. */
  function ClosingMsg(username: string, link: string, end: PollEnd): string {
    match end
    case Finished => WithUsername(username, link)
    case GenerationFailed => WithUsername(username, FailMsg)
    case TimedOut => WithUsername(username, TimeoutMsg)
    case StatusError => WithUsername(username, StatusErrorMsg)
  }

  /** What polling posts from the k-th poll on, how many status requests it
      makes and how it ends. */
  datatype PollRun = PollRun(msgs: seq<string>, polls: nat, end: PollEnd)

  /** The time of the timeout test before poll `k` (half a second before the
      start for the first). */
  function PrevCheck(net: Network, k: nat): int {
    if k == 0 then net.start - 500 else net.clock(k - 1)
  }

  /** `post_generation_status` from its k-th poll on. */
  function PollFrom(net: Network, k: nat, username: string, link: string): PollRun
    requires ClockOk(net) && PrevCheck(net, k) <= Deadline(net)
    decreases Deadline(net) - PrevCheck(net, k)
  {
    var reply := net.poll(k);
    assert k > 0 ==> Tick(net, k - 1);
    match PollVerdict(net, k)
    case Some(StatusError) => PollRun([WithUsername(username, StatusErrorMsg)], 1, StatusError)
    case Some(end) => PollRun([reply.text, ClosingMsg(username, link, end)], 1, end)
    case None =>
      var rest := PollFrom(net, k + 1, username, link);
      PollRun([reply.text] + rest.msgs, rest.polls + 1, rest.end)
  }

  /** The shape of a poll run from poll `k`: it polls at least once, stops
      at the first poll with a verdict, posts each raw status text before
      the closing message, and a failed request posts only the error. */
  ghost predicate Shaped(net: Network, k: nat, username: string, link: string)
    requires ClockOk(net) && PrevCheck(net, k) <= Deadline(net)
  {
    var r := PollFrom(net, k, username, link);
    && r.polls >= 1
    && (forall j :: k <= j < k + r.polls - 1 ==> PollVerdict(net, j).None?)
    && PollVerdict(net, k + r.polls - 1) == Some(r.end)
    && |r.msgs| == (if r.end == StatusError then r.polls else r.polls + 1)
    && (forall i :: 0 <= i < |r.msgs| - 1 ==> r.msgs[i] == net.poll(k + i).text)
    && r.msgs[|r.msgs| - 1] == ClosingMsg(username, link, r.end)
  }

  /** Polling stops at the first poll with a verdict and at no earlier one;
      each successful poll posts its raw status text first; the last message
      is the one that closes the run; a failed request posts only the error. */
  lemma {:induction false} PollRunShape(net: Network, k: nat, username: string, link: string)
    requires ClockOk(net) && PrevCheck(net, k) <= Deadline(net)
    ensures Shaped(net, k, username, link)
    decreases Deadline(net) - PrevCheck(net, k)
  {
    PollStep(net, k, username, link);
    if PollVerdict(net, k).None? {
      PollRunShape(net, k + 1, username, link);
      ShapedStep(net, k, username, link);
    }
  }

  /** A poll without a verdict puts its status text in front of a run that
      keeps its shape. */
  lemma ShapedStep(net: Network, k: nat, username: string, link: string)
    requires ClockOk(net) && PrevCheck(net, k) <= Deadline(net) && PollVerdict(net, k).None?
    requires PrevCheck(net, k + 1) <= Deadline(net) && Shaped(net, k + 1, username, link)
    requires PollFrom(net, k, username, link).msgs == [net.poll(k).text] + PollFrom(net, k + 1, username, link).msgs
    ensures Shaped(net, k, username, link)
  {
    var rest := PollFrom(net, k + 1, username, link);
    var r := PollFrom(net, k, username, link);
    assert r == PollRun([net.poll(k).text] + rest.msgs, rest.polls + 1, rest.end);
    forall i | 0 <= i < |r.msgs| - 1 ensures r.msgs[i] == net.poll(k + i).text {
      if i > 0 {
        assert r.msgs[i] == rest.msgs[i - 1];
      }
    }
  }

  /** The clock advances by at least half a second per poll. */
  lemma {:induction false} ClockBound(net: Network, k: nat)
    requires ClockOk(net)
    ensures net.clock(k) >= net.start + 500 * k
  {
    if k > 0 {
      ClockBound(net, k - 1);
      assert Tick(net, k - 1);
    }
  }

  /** The deadline bounds the polling: at most 122 status requests (the
      test is strict, so a poll exactly at the deadline still continues). */
  lemma PollsBounded(net: Network, username: string, link: string)
    requires ClockOk(net)
    ensures PollFrom(net, 0, username, link).polls <= 2 + PollLimit / 500
  {
    PollRunShape(net, 0, username, link);
    var r := PollFrom(net, 0, username, link);
    if r.polls >= 2 {
      var last := r.polls - 2;
      assert PollVerdict(net, last).None?;
      ClockBound(net, last);
    }
  }

  /** One poll of `PollFrom`, unfolded. */
  lemma PollStep(net: Network, k: nat, username: string, link: string)
    requires ClockOk(net) && PrevCheck(net, k) <= Deadline(net)
    ensures var r := PollFrom(net, k, username, link);
      match PollVerdict(net, k)
      case Some(StatusError) => r == PollRun([WithUsername(username, StatusErrorMsg)], 1, StatusError)
      case Some(end) => r == PollRun([net.poll(k).text, ClosingMsg(username, link, end)], 1, end)
      case None => PrevCheck(net, k + 1) <= Deadline(net)
                   && PrevCheck(net, k + 1) > PrevCheck(net, k)
                   && r.msgs == [net.poll(k).text] + PollFrom(net, k + 1, username, link).msgs
  {
    assert k > 0 ==> Tick(net, k - 1);
  }

  /** One poll of a run that has already posted `done`. */
  lemma PollAdvance(net: Network, k: nat, username: string, link: string, done: seq<string>)
    requires ClockOk(net) && PrevCheck(net, k) <= Deadline(net)
    requires PollFrom(net, 0, username, link).msgs == done + PollFrom(net, k, username, link).msgs
    ensures var all := PollFrom(net, 0, username, link).msgs;
      match PollVerdict(net, k)
      case Some(StatusError) => all == done + [WithUsername(username, StatusErrorMsg)]
      case Some(end) => all == (done + [net.poll(k).text]) + [ClosingMsg(username, link, end)]
      case None => PrevCheck(net, k + 1) <= Deadline(net)
                   && PrevCheck(net, k + 1) > PrevCheck(net, k)
                   && all == (done + [net.poll(k).text]) + PollFrom(net, k + 1, username, link).msgs
  {
    PollStep(net, k, username, link);
    if PollVerdict(net, k).None? {
      assert done + ([net.poll(k).text] + PollFrom(net, k + 1, username, link).msgs)
          == (done + [net.poll(k).text]) + PollFrom(net, k + 1, username, link).msgs;
    }
  }

  /** A status text that carries both markers counts as finished, at
      whichever poll it arrives. */
  lemma FinishedTakesPrecedence(net: Network, k: nat, username: string, link: string)
    requires ClockOk(net) && PrevCheck(net, k) <= Deadline(net)
    requires net.poll(k).status == 200
    requires Contains(net.poll(k).text, FinishedMarker) && Contains(net.poll(k).text, FailedMarker)
    ensures PollFrom(net, k, username, link) == PollRun([net.poll(k).text, WithUsername(username, link)], 1, Finished)
  {
  }

  /** A run that never sees a marker ends on the timeout test, with exactly
      one timeout message, and makes no request after it. */
  lemma NoMarkerTimesOut(net: Network, username: string, link: string)
    requires ClockOk(net)
    requires forall k :: net.poll(k).status == 200
    requires forall k :: !Contains(net.poll(k).text, FinishedMarker) && !Contains(net.poll(k).text, FailedMarker)
    ensures var r := PollFrom(net, 0, username, link);
      && r.end == TimedOut
      && net.clock(r.polls - 1) > Deadline(net)
      && (forall i :: 0 <= i < r.polls - 1 ==> net.clock(i) <= Deadline(net))
      && r.msgs[|r.msgs| - 1] == WithUsername(username, TimeoutMsg)
      && (forall i :: 0 <= i < |r.msgs| - 1 ==> r.msgs[i] == net.poll(i).text)
  {
    PollRunShape(net, 0, username, link);
    var r := PollFrom(net, 0, username, link);
    forall i | 0 <= i < r.polls - 1 ensures net.clock(i) <= Deadline(net) {
      assert PollVerdict(net, i).None?;
    }
    assert PollVerdict(net, r.polls - 1) == Some(r.end);
  }

  /** An "in progress" status followed by a "finished" one: two status
      messages, then the repository link. */
  lemma InProgressThenFinished(net: Network, username: string, link: string)
    requires ClockOk(net) && net.clock(0) <= Deadline(net)
    requires net.poll(0) == Reply(200, "Generation in progress")
    requires net.poll(1) == Reply(200, "Generation finished")
    ensures PollFrom(net, 0, username, link).msgs
            == ["Generation in progress", "Generation finished", WithUsername(username, link)]
  {
    var s := "Generation in progress";
    forall j | 0 <= j <= |s| ensures !MatchAt(s, FinishedMarker, j) && !MatchAt(s, FailedMarker, j) {
      if j == 0 {
        NoMatchAt(s, FinishedMarker, j, 11);
        NoMatchAt(s, FailedMarker, j, 11);
      } else if j <= 5 {
        NoMatchAt(s, FinishedMarker, j, 0);
        NoMatchAt(s, FailedMarker, j, 0);
      } else {
        NoMatchAt(s, FinishedMarker, j, 0);
        NoMatchAt(s, FailedMarker, j, 0);
      }
    }
    assert MatchAt("Generation finished", FinishedMarker, 0);
    assert PollVerdict(net, 0).None?;
    assert PollVerdict(net, 1) == Some(Finished);
  }

  /** `get_token` followed by the `if token:` test: a token is used only when
      authentication answered 200 with a non-empty `id_token`. */
  function UsableToken(auth: AuthReply): (r: Option<string>)
    ensures r.Some? <==> auth.status == 200 && auth.idToken != ""
    ensures r.Some? ==> r.value == auth.idToken
  {
    if auth.status == 200 && auth.idToken != "" then Some(auth.idToken) else None
  }

  /** What one command posts, in order, and whether it ends in an exception. */
  datatype Run = Run(msgs: seq<string>, outcome: Outcome)

  /** `generate_application` from payload `p0` and git provider `provider0`. */
  function GenerateRun(username: string, tokens: seq<string>, p0: Payload, provider0: string,
                       settings: Settings, net: Network): Run
    requires ClockOk(net)
  {
    match Build(p0, provider0, tokens, settings.onlineUser)
    case Fail(e) => Run([], Raised(e))
    case Ok(p) =>
      if UsableToken(net.auth).None? || net.submit.status != 201 then Run([WithUsername(username, FailMsg)], Completed)
      else
        var link := LinkMsg(p.gitProvider.value, settings.onlineUser, p.generator.baseName);
        Run(PollFrom(net, 0, username, link).msgs, Completed)
  }

  /** A fresh command whose port argument parses, with a usable token and
      an accepted submission, polls with the link built from the provider
      the tokens select ("gitlab" when that token occurs, else "github") and
      the base name they select (the argument of the first "named"). */
  lemma GeneratedLink(username: string, tokens: seq<string>, settings: Settings, net: Network)
    requires ClockOk(net)
    requires !PortFails(tokens) && UsableToken(net.auth).Some? && net.submit.status == 201
    ensures var provider := if "gitlab" in tokens then "gitlab" else "github";
      var name := match ArgumentOf(tokens, "named") case Some(n) => n case None => DefaultName;
      var link := "here the link of your application: https://" + provider + ".com/" + settings.onlineUser + "/" + name;
      GenerateRun(username, tokens, DefaultPayload(settings.onlineUser), DefaultProvider, settings, net)
      == Run(PollFrom(net, 0, username, link).msgs, Completed)
  {
    GeneratePayloadTable(tokens, settings.onlineUser);
  }

  /** `process_command` on routing string `route` and tokens `tokens`. */
  function ProcessRun(route: string, tokens: seq<string>, p0: Payload, provider0: string,
                      settings: Settings, net: Network): Run
    requires ClockOk(net)
  {
    match net.userName
    case None => Run([UsernameErrorMsg], Completed)
    case Some(u) =>
      if StartsWith(route, "generate ") then
        var g := GenerateRun(u, tokens, p0, provider0, settings, net);
        Run([WithUsername(u, RequestMsg)] + g.msgs, g.outcome)
      else Run([WithUsername(u, HelpMsg)], Completed)
  }

  /** A fresh `HipSlacker` for the event text `text` processing its command. */
  function CommandRun(text: string, settings: Settings, net: Network): Run
    requires ValidSettings(settings) && Contains(text, settings.atBot) && ClockOk(net)
  {
    ProcessRun(RoutingString(text, settings.atBot), SplitWs(text),
               DefaultPayload(settings.onlineUser), DefaultProvider, settings, net)
  }

  /** A failed username lookup posts exactly one message, without the
      username, and stops. */
  lemma LookupFailureStops(route: string, tokens: seq<string>, p0: Payload, provider0: string,
                           settings: Settings, net: Network)
    requires ClockOk(net) && net.userName.None?
    ensures ProcessRun(route, tokens, p0, provider0, settings, net) == Run([UsernameErrorMsg], Completed)
  {
  }

  /** Only a routing string that starts with "generate " (with its space)
      starts a generation; any other gets the help message alone. */
  lemma RoutingDecision(route: string, tokens: seq<string>, p0: Payload, provider0: string,
                        settings: Settings, net: Network)
    requires ClockOk(net) && net.userName.Some?
    ensures var r := ProcessRun(route, tokens, p0, provider0, settings, net);
      && r.msgs != []
      && (r.msgs[0] == WithUsername(net.userName.value, RequestMsg) <==> StartsWith(route, "generate "))
      && (!StartsWith(route, "generate ") ==> r == Run([WithUsername(net.userName.value, HelpMsg)], Completed))
  {
    var u := net.userName.value;
    if !StartsWith(route, "generate ") {
      assert WithUsername(u, HelpMsg) != WithUsername(u, RequestMsg) by {
        var pre := "Yo <@" + u + ">, ";
        assert WithUsername(u, HelpMsg) == pre + HelpMsg && WithUsername(u, RequestMsg) == pre + RequestMsg;
        assert |HelpMsg| != |RequestMsg|;
      }
    }
  }

  /** Without a usable token, or when the job is not accepted with 201, the
      fail message is posted and nothing is polled. */
  lemma RejectedJobNeverPolls(u: string, tokens: seq<string>, p0: Payload, provider0: string,
                              settings: Settings, net: Network)
    requires ClockOk(net)
    requires Build(p0, provider0, tokens, settings.onlineUser).Ok?
    requires UsableToken(net.auth).None? || net.submit.status != 201
    ensures GenerateRun(u, tokens, p0, provider0, settings, net) == Run([WithUsername(u, FailMsg)], Completed)
  {
  }

  /** The token test of `generate_application`, on the raw authentication
      reply: once the payload is built and the submission would be
      accepted, the run is the lone fail message exactly when the reply is
      not a 200 with a non-empty `id_token`. */
  lemma TokenGate(u: string, tokens: seq<string>, p0: Payload, provider0: string,
                  settings: Settings, net: Network)
    requires ClockOk(net)
    requires Build(p0, provider0, tokens, settings.onlineUser).Ok? && net.submit.status == 201
    ensures GenerateRun(u, tokens, p0, provider0, settings, net) == Run([WithUsername(u, FailMsg)], Completed)
            <==> !(net.auth.status == 200 && net.auth.idToken != "")
  {
    if net.auth.status == 200 && net.auth.idToken != "" {
      var p := Build(p0, provider0, tokens, settings.onlineUser).value;
      PollNeverOnlyFails(net, u, LinkMsg(p.gitProvider.value, settings.onlineUser, p.generator.baseName));
    }
  }

  /** Polling never posts the fail message alone: a failed status request
      posts the status error, and every other run posts at least the
      status text and a closing message. */
  lemma PollNeverOnlyFails(net: Network, u: string, link: string)
    requires ClockOk(net)
    ensures PollFrom(net, 0, u, link).msgs != [WithUsername(u, FailMsg)]
  {
    PollRunShape(net, 0, u, link);
    WithUsernameDiffers(u, StatusErrorMsg, FailMsg);
  }

  /** Messages addressed to the same user differ when their texts differ
      in length. */
  lemma WithUsernameDiffers(u: string, m1: string, m2: string)
    requires |m1| != |m2|
    ensures WithUsername(u, m1) != WithUsername(u, m2)
  {
  }

  /** An `int()` failure in the payload is not turned into a chat message:
      only the acknowledgement is posted and the exception escapes. */
  lemma BadPortEscapes(route: string, tokens: seq<string>, p0: Payload, provider0: string,
                       settings: Settings, net: Network)
    requires ClockOk(net) && net.userName.Some? && StartsWith(route, "generate ")
    requires Build(p0, provider0, tokens, settings.onlineUser).Fail?
    ensures ProcessRun(route, tokens, p0, provider0, settings, net)
            == Run([WithUsername(net.userName.value, RequestMsg)],
                   Raised(Build(p0, provider0, tokens, settings.onlineUser).error))
  {
  }

  // ---------------------------------------------------------------------
  // The objects.

  datatype Post = Post(channel: string, text: string)

  /** The posts of `msgs` to `channel`, in order. */
  function PostsTo(channel: string, msgs: seq<string>): seq<Post> {
    if msgs == [] then [] else [Post(channel, msgs[0])] + PostsTo(channel, msgs[1..])
  }

  lemma {:induction false} PostsToAppend(channel: string, a: seq<string>, b: seq<string>)
    ensures PostsTo(channel, a + b) == PostsTo(channel, a) + PostsTo(channel, b)
  {
    if a == [] {
      assert a + b == b;
    } else {
      assert (a + b)[1..] == a[1..] + b;
      PostsToAppend(channel, a[1..], b);
    }
  }

  /** Posting one more message extends the posts by one. */
  lemma PostsToSnoc(channel: string, a: seq<string>, x: string)
    ensures PostsTo(channel, a + [x]) == PostsTo(channel, a) + [Post(channel, x)]
  {
    PostsToAppend(channel, a, [x]);
  }

  /** Posts so far followed by one more message are the posts of the
      extended message list. */
  lemma PostedSnoc(posted0: seq<Post>, channel: string, done: seq<string>, x: string, all: seq<string>)
    requires all == done + [x]
    ensures (posted0 + PostsTo(channel, done)) + [Post(channel, x)] == posted0 + PostsTo(channel, all)
  {
    PostsToSnoc(channel, done, x);
  }

  /** The Slack client, reduced to the messages posted through it. */
  class SlackClient {
    var posted: seq<Post>

    constructor ()
      ensures posted == []
    {
      posted := [];
    }

    /** `api_call("chat.postMessage", channel=…, text=…)`. */
    method PostMessage(channel: string, text: string)
      modifies this
      ensures posted == old(posted) + [Post(channel, text)]
    {
      posted := posted + [Post(channel, text)];
    }
  }

  class HipSlacker {
    const slackClient: SlackClient
    const settings: Settings
    const command: string        // the routing string
    const channel: string
    const user: string
    const commands: seq<string>  // the tokens of the whole event text
    var payload: Payload
    var gitProvider: string
    var username: Option<string>

    constructor (slackClient: SlackClient, settings: Settings, command: string, channel: string, user: string)
      requires ValidSettings(settings) && Contains(command, settings.atBot)
      ensures this.slackClient == slackClient && this.settings == settings
      ensures this.command == RoutingString(command, settings.atBot)
      ensures this.channel == channel && this.user == user
      ensures commands == SplitWs(command)
      ensures payload == DefaultPayload(settings.onlineUser) && gitProvider == DefaultProvider
      ensures username.None?
    {
      this.slackClient := slackClient;
      this.settings := settings;
      this.command := RoutingString(command, settings.atBot);
      this.channel := channel;
      this.user := user;
      this.commands := SplitWs(command);
      payload := DefaultPayload(settings.onlineUser);
      gitProvider := DefaultProvider;
      username := None;
    }

    method ProcessCommand(net: Network) returns (outcome: Outcome)
      requires ClockOk(net)
      modifies this`username, this`payload, this`gitProvider, slackClient
      ensures var r := ProcessRun(command, commands, old(payload), old(gitProvider), settings, net);
        slackClient.posted == old(slackClient.posted) + PostsTo(channel, r.msgs) && outcome == r.outcome
      ensures username == (if net.userName.Some? then net.userName else old(username))
      ensures net.userName.None? || !StartsWith(command, "generate ") ==>
                payload == old(payload) && gitProvider == old(gitProvider)
      ensures var b := Build(old(payload), old(gitProvider), commands, settings.onlineUser);
        net.userName.Some? && StartsWith(command, "generate ") && b.Ok? ==>
          payload == b.value && gitProvider == b.value.gitProvider.value
    {
      match net.userName {
        case None =>
          PostMsg(UsernameErrorMsg);
          return Completed;
        case Some(u) =>
          username := Some(u);
      }
      if StartsWith(command, "generate ") {
        ghost var g := GenerateRun(username.value, commands, payload, gitProvider, settings, net);
        assert ProcessRun(command, commands, payload, gitProvider, settings, net)
               == Run([WithUsername(username.value, RequestMsg)] + g.msgs, g.outcome);
        PostWithUsername(RequestMsg);
        outcome := GenerateApplication(net);
        PostsToAppend(channel, [WithUsername(username.value, RequestMsg)], g.msgs);
        return;
      }
      PostWithUsername(HelpMsg);
      outcome := Completed;
    }

    method GenerateApplication(net: Network) returns (outcome: Outcome)
      requires ClockOk(net) && username.Some?
      modifies this`payload, this`gitProvider, slackClient
      ensures var r := GenerateRun(username.value, commands, old(payload), old(gitProvider), settings, net);
        slackClient.posted == old(slackClient.posted) + PostsTo(channel, r.msgs) && outcome == r.outcome
      ensures var b := Build(old(payload), old(gitProvider), commands, settings.onlineUser);
        b.Ok? ==> payload == b.value && gitProvider == b.value.gitProvider.value
    {
      outcome := GeneratePayload();
      if outcome.Raised? {
        return;
      }
      var token := UsableToken(net.auth);
      if token.Some? {
        if net.submit.status != 201 {
          PostFailMsg();
          return;
        }
        PostGenerationStatus(net.submit.text, token.value, net);
      } else {
        PostFailMsg();
      }
    }

    method GeneratePayload() returns (outcome: Outcome)
      modifies this`payload, this`gitProvider
      ensures var b := Build(old(payload), old(gitProvider), commands, settings.onlineUser);
        && (outcome.Completed? <==> b.Ok?)
        && (b.Fail? ==> outcome == Raised(b.error))
        && (b.Ok? ==> payload == b.value && gitProvider == b.value.gitProvider.value)
    {
      ghost var d0 := Draft(payload.generator, gitProvider);
      var i := 0;
      while i < |commands|
        invariant 0 <= i <= |commands|
        invariant Fold(d0, commands, i) == Ok(Draft(payload.generator, gitProvider))
        invariant payload == old(payload).(generator := payload.generator)
      {
        var c := commands[i];
        ghost var d := Draft(payload.generator, gitProvider);
        if c in AppTypes {
          SetApplicationType(c);
        }
        if c == "named" {
          SetAppName();
        }
        if c in SqlDatabases {
          SetDatabase("sql", "h2Disk", c);
        }
        if c in NoSqlDatabases {
          SetDatabase(c, c, c);
        }
        if c == "port" {
          outcome := SetPort();
          if outcome.Raised? {
            FailurePersists(d0, commands, i + 1, |commands|);
            return;
          }
        }
        if c == "gitlab" {
          gitProvider := "gitlab";
        }
        assert Step(d, commands, c) == Ok(Draft(payload.generator, gitProvider));
        i := i + 1;
      }
      payload := payload.(repositoryName := payload.generator.baseName);
      payload := payload.(gitProvider := Some(gitProvider));
      payload := payload.(generator := payload.generator.(
                   packageName := Some("io." + gitProvider + "." + settings.onlineUser),
                   packageFolder := Some("io/" + gitProvider + "/" + settings.onlineUser + "/")));
      outcome := Completed;
    }

    method SetApplicationType(value: string)
      modifies this`payload
      ensures payload == old(payload).(generator := old(payload).generator.(applicationType := value))
    {
      payload := payload.(generator := payload.generator.(applicationType := value));
    }

    method SetAppName()
      requires "named" in commands
      modifies this`payload
      ensures payload == old(payload).(generator := WithAppName(old(payload).generator, commands))
    {
      var index := FirstIndex(commands, "named") + 1;
      if index < |commands| {
        payload := payload.(generator := payload.generator.(baseName := commands[index]));
      }
    }

    method SetDatabase(dbType: string, devType: string, prodType: string)
      modifies this`payload
      ensures payload == old(payload).(generator := WithDatabase(old(payload).generator, dbType, devType, prodType))
    {
      payload := payload.(generator := payload.generator.(
                   databaseType := dbType, devDatabaseType := devType, prodDatabaseType := prodType));
    }

    method SetPort() returns (outcome: Outcome)
      requires "port" in commands
      modifies this`payload
      ensures match WithPort(old(payload).generator, commands)
        case Ok(g) => outcome == Completed && payload == old(payload).(generator := g)
        case Fail(e) => outcome == Raised(e) && payload == old(payload)
    {
      var index := FirstIndex(commands, "port") + 1;
      if index < |commands| {
        var value := ParseInt(commands[index]);
        if value.None? {
          return Raised(InvalidLiteral(commands[index]));
        }
        payload := payload.(generator := payload.generator.(serverPort := value.value));
      }
      outcome := Completed;
    }

    method PostGenerationStatus(appId: string, token: string, net: Network)
      requires ClockOk(net) && username.Some?
      modifies slackClient
      ensures var link := LinkMsg(gitProvider, settings.onlineUser, payload.generator.baseName);
        slackClient.posted == old(slackClient.posted) + PostsTo(channel, PollFrom(net, 0, username.value, link).msgs)
    {
      var u := username.value;
      var link := LinkMsg(gitProvider, settings.onlineUser, payload.generator.baseName);
      var timeout := net.start + PollLimit;
      var k := 0;
      ghost var done: seq<string> := [];
      ghost var posted0 := slackClient.posted;
      while true
        invariant PrevCheck(net, k) <= timeout
        invariant PollFrom(net, 0, u, link).msgs == done + PollFrom(net, k, u, link).msgs
        invariant slackClient.posted == posted0 + PostsTo(channel, done)
        decreases timeout - PrevCheck(net, k)
      {
        PollAdvance(net, k, u, link, done);
        var r := net.poll(k);
        if r.status != 200 {
          PostWithUsername(StatusErrorMsg);
          PostedSnoc(posted0, channel, done, WithUsername(u, StatusErrorMsg), PollFrom(net, 0, u, link).msgs);
          return;
        }
        PostMsg(r.text);
        PostedSnoc(posted0, channel, done, r.text, done + [r.text]);
        ghost var end: PollEnd;
        if Contains(r.text, FinishedMarker) {
          PostWithUsername(link);
          end := Finished;
        } else if Contains(r.text, FailedMarker) {
          PostFailMsg();
          end := GenerationFailed;
        } else if net.clock(k) > timeout {
          PostWithUsername(TimeoutMsg);
          end := TimedOut;
        }
        if PollVerdict(net, k).Some? {
          assert PollVerdict(net, k) == Some(end) && end != StatusError;
          PostedSnoc(posted0, channel, done + [r.text], ClosingMsg(u, link, end), PollFrom(net, 0, u, link).msgs);
          return;
        }
        done := done + [r.text];
        k := k + 1;
      }
    }

    method PostFailMsg()
      requires username.Some?
      modifies slackClient
      ensures slackClient.posted == old(slackClient.posted) + [Post(channel, WithUsername(username.value, FailMsg))]
    {
      PostWithUsername(FailMsg);
    }

    method PostWithUsername(msg: string)
      requires username.Some?
      modifies slackClient
      ensures slackClient.posted == old(slackClient.posted) + [Post(channel, WithUsername(username.value, msg))]
    {
      PostMsg("Yo <@" + username.value + ">, " + msg);
    }

    method PostMsg(msg: string)
      modifies slackClient
      ensures slackClient.posted == old(slackClient.posted) + [Post(channel, msg)]
    {
      slackClient.PostMessage(channel, msg);
    }
  }
}
