/** The bot's event filter: which real-time events become commands, and what
    a batch of events posts. The shared Slack client is the `SlackClient`
    log of posted messages; each dispatched command gets its own `Network`. */
module Bot {
  import opened Text
  import opened Payload
  import opened Hipslacker

  /** A real-time event, reduced to its string-valued fields by key. */
  type Event = map<string, string>

  /** The arguments `handle_command` is called with. */
  datatype Command = Command(text: string, channel: string, user: string)

  /** What the filter does with one event: skip it, hand it on, or raise a
      KeyError on the missing key. */
  datatype Verdict = Ignore | Dispatch(cmd: Command) | Crash(key: string)

  /** The test of `parse_slack_output` on one event, with the dictionary
      lookups made in the order the source makes them: `text` is tested for
      presence, `user` is read in the condition, `channel` only in the call. */
  function Classify(e: Event, s: Settings): (r: Verdict)
    ensures r.Dispatch? ==> && "text" in e && "channel" in e && "user" in e
                            && r.cmd == Command(e["text"], e["channel"], e["user"])
                            && Contains(r.cmd.text, s.atBot)
                            && r.cmd.user != s.botId
    ensures r.Crash? ==> r.key !in e && (r.key == "user" || r.key == "channel")
    ensures ("text" !in e || !Contains(e["text"], s.atBot)) ==> r == Ignore
    ensures "user" in e && e["user"] == s.botId ==> r == Ignore
    ensures ("text" in e && Contains(e["text"], s.atBot) && "user" !in e) ==> r == Crash("user")
    ensures (&& "text" in e && Contains(e["text"], s.atBot)
             && "user" in e && e["user"] != s.botId && "channel" !in e) ==> r == Crash("channel")
    ensures (&& "text" in e && Contains(e["text"], s.atBot)
             && "user" in e && e["user"] != s.botId && "channel" in e) ==> r.Dispatch?
  {
    if e == map[] || "text" !in e || !Contains(e["text"], s.atBot) then Ignore
    else if "user" !in e then Crash("user")
    else if e["user"] == s.botId then Ignore
    else if "channel" !in e then Crash("channel")
    else Dispatch(Command(e["text"], e["channel"], e["user"]))
  }

  /** Every command gets a world whose clock keeps to the polling interval. */
  ghost predicate AllClocksOk(nets: nat -> Network) {
    forall i: nat :: ClockOk(nets(i))
  }

  /** What a batch posts, which commands it dispatched and how it ends. */
  datatype Handled = Handled(dispatched: seq<Command>, posts: seq<Post>, outcome: Outcome)

  /** `parse_slack_output` from event `i` on; event `i` is answered by
      `nets(i)`. An exception, from a lookup or from a command, ends the
      batch. */
  function BatchRun(events: seq<Event>, s: Settings, nets: nat -> Network, i: nat): Handled
    requires ValidSettings(s) && AllClocksOk(nets) && i <= |events|
    decreases |events| - i
  {
    if i == |events| then Handled([], [], Completed)
    else match Classify(events[i], s)
      case Ignore => BatchRun(events, s, nets, i + 1)
      case Crash(key) => Handled([], [], Raised(MissingKey(key)))
      case Dispatch(c) =>
        var run := CommandRun(c.text, s, nets(i));
        var posts := PostsTo(c.channel, run.msgs);
        if run.outcome.Raised? then Handled([c], posts, run.outcome)
        else
          var rest := BatchRun(events, s, nets, i + 1);
          Handled([c] + rest.dispatched, posts + rest.posts, rest.outcome)
  }

  /** Reference definition: the commands among events `i..`, in order. */
  function Dispatched(events: seq<Event>, s: Settings, i: nat): seq<Command>
    requires i <= |events|
    decreases |events| - i
  {
    if i == |events| then []
    else match Classify(events[i], s)
      case Dispatch(c) => [c] + Dispatched(events, s, i + 1)
      case _ => Dispatched(events, s, i + 1)
  }

  /** Event `j` is handled without an exception by its own command. */
  predicate Quiet(events: seq<Event>, s: Settings, nets: nat -> Network, j: nat)
    requires ValidSettings(s) && AllClocksOk(nets) && j < |events|
  {
    match Classify(events[j], s)
    case Ignore => true
    case Crash(_) => false
    case Dispatch(c) => CommandRun(c.text, s, nets(j)).outcome.Completed?
  }

  /** The batch from event `i` on dispatches a prefix of the filtered
      commands, ends normally exactly when no event from `i` on raises, and
      then dispatches all of them. */
  ghost predicate Follows(events: seq<Event>, s: Settings, nets: nat -> Network, i: nat)
    requires ValidSettings(s) && AllClocksOk(nets) && i <= |events|
  {
    var r := BatchRun(events, s, nets, i);
    && r.dispatched <= Dispatched(events, s, i)
    && (r.outcome.Completed? <==> forall j :: i <= j < |events| ==> Quiet(events, s, nets, j))
    && (r.outcome.Completed? ==> r.dispatched == Dispatched(events, s, i))
  }

  /** The batch dispatches the filtered commands in order, stopping early
      only on an exception; it ends normally exactly when no event from `i`
      on raises. */
  lemma {:induction false} BatchFollowsFilter(events: seq<Event>, s: Settings, nets: nat -> Network, i: nat)
    requires ValidSettings(s) && AllClocksOk(nets) && i <= |events|
    ensures var r := BatchRun(events, s, nets, i);
      && r.dispatched <= Dispatched(events, s, i)
      && (r.outcome.Completed? <==> forall j :: i <= j < |events| ==> Quiet(events, s, nets, j))
      && (r.outcome.Completed? ==> r.dispatched == Dispatched(events, s, i))
    decreases |events| - i
  {
    if i < |events| {
      BatchFollowsFilter(events, s, nets, i + 1);
      match Classify(events[i], s)
      case Ignore => FollowsAfterSkip(events, s, nets, i);
      case Crash(_) => FollowsAfterCrash(events, s, nets, i);
      case Dispatch(c) => FollowsAfterDispatch(events, s, nets, i, c);
    }
  }

  lemma FollowsAfterSkip(events: seq<Event>, s: Settings, nets: nat -> Network, i: nat)
    requires ValidSettings(s) && AllClocksOk(nets) && i < |events|
    requires Classify(events[i], s) == Ignore && Follows(events, s, nets, i + 1)
    ensures Follows(events, s, nets, i)
  {
    assert BatchRun(events, s, nets, i) == BatchRun(events, s, nets, i + 1);
    assert Dispatched(events, s, i) == Dispatched(events, s, i + 1);
    assert Quiet(events, s, nets, i);
  }

  lemma FollowsAfterCrash(events: seq<Event>, s: Settings, nets: nat -> Network, i: nat)
    requires ValidSettings(s) && AllClocksOk(nets) && i < |events|
    requires Classify(events[i], s).Crash?
    ensures Follows(events, s, nets, i)
  {
    assert BatchRun(events, s, nets, i).dispatched == [];
    assert !Quiet(events, s, nets, i);
  }

  lemma FollowsAfterDispatch(events: seq<Event>, s: Settings, nets: nat -> Network, i: nat, c: Command)
    requires ValidSettings(s) && AllClocksOk(nets) && i < |events|
    requires Classify(events[i], s) == Dispatch(c) && Follows(events, s, nets, i + 1)
    ensures Follows(events, s, nets, i)
  {
    if CommandRun(c.text, s, nets(i)).outcome.Raised? {
      FollowsAfterRaise(events, s, nets, i, c);
    } else {
      FollowsAfterCommand(events, s, nets, i, c);
    }
  }

  lemma FollowsAfterRaise(events: seq<Event>, s: Settings, nets: nat -> Network, i: nat, c: Command)
    requires ValidSettings(s) && AllClocksOk(nets) && i < |events|
    requires Classify(events[i], s) == Dispatch(c) && CommandRun(c.text, s, nets(i)).outcome.Raised?
    ensures Follows(events, s, nets, i)
  {
    var r := BatchRun(events, s, nets, i);
    assert Dispatched(events, s, i) == [c] + Dispatched(events, s, i + 1);
    assert r.dispatched == [c] && r.outcome.Raised?;
    assert !Quiet(events, s, nets, i);
  }

  lemma FollowsAfterCommand(events: seq<Event>, s: Settings, nets: nat -> Network, i: nat, c: Command)
    requires ValidSettings(s) && AllClocksOk(nets) && i < |events|
    requires Classify(events[i], s) == Dispatch(c) && CommandRun(c.text, s, nets(i)).outcome.Completed?
    requires Follows(events, s, nets, i + 1)
    ensures Follows(events, s, nets, i)
  {
    var r := BatchRun(events, s, nets, i);
    var rest := BatchRun(events, s, nets, i + 1);
    assert Dispatched(events, s, i) == [c] + Dispatched(events, s, i + 1);
    assert r.dispatched == [c] + rest.dispatched && r.outcome == rest.outcome;
    PrefixCons(c, rest.dispatched, Dispatched(events, s, i + 1));
    assert Quiet(events, s, nets, i);
    QuietFrom(events, s, nets, i);
  }

  lemma PrefixCons<T>(c: T, a: seq<T>, b: seq<T>)
    requires a <= b
    ensures [c] + a <= [c] + b
  {
    assert ([c] + b)[..|[c] + a|] == [c] + b[..|a|];
  }

  /** No event from `i` on raises exactly when event `i` does not and no
      event from `i + 1` on does. */
  lemma QuietFrom(events: seq<Event>, s: Settings, nets: nat -> Network, i: nat)
    requires ValidSettings(s) && AllClocksOk(nets) && i < |events|
    ensures (forall j :: i <= j < |events| ==> Quiet(events, s, nets, j))
        <==> Quiet(events, s, nets, i) && forall j :: i + 1 <= j < |events| ==> Quiet(events, s, nets, j)
  {
  }

  /** Events that never mention the bot post nothing and dispatch nothing. */
  lemma {:induction false} UnmentionedBatchIsSilent(events: seq<Event>, s: Settings, nets: nat -> Network, i: nat)
    requires ValidSettings(s) && AllClocksOk(nets) && i <= |events|
    requires forall j :: i <= j < |events| ==> "text" !in events[j] || !Contains(events[j]["text"], s.atBot)
    ensures BatchRun(events, s, nets, i) == Handled([], [], Completed)
    decreases |events| - i
  {
    if i < |events| {
      UnmentionedBatchIsSilent(events, s, nets, i + 1);
    }
  }

  /** What the batch has done so far, followed by what it does from here. */
  function Joined(dispatched: seq<Command>, posts: seq<Post>, r: Handled): Handled {
    Handled(dispatched + r.dispatched, posts + r.posts, r.outcome)
  }

  /** An event the filter skips leaves the rest of the batch as it is. */
  lemma SkipAdvances(events: seq<Event>, s: Settings, nets: nat -> Network, i: nat,
                     dispatched: seq<Command>, done: seq<Post>, total: Handled)
    requires ValidSettings(s) && AllClocksOk(nets) && i < |events|
    requires Classify(events[i], s) == Ignore
    requires total == Joined(dispatched, done, BatchRun(events, s, nets, i))
    ensures total == Joined(dispatched, done, BatchRun(events, s, nets, i + 1))
  {
  }

  /** Concatenation regroups. */
  lemma Regroup<T>(a: seq<T>, b: seq<T>, c: seq<T>)
    ensures (a + b) + c == a + (b + c)
  {
  }

  /** A missing key ends the batch with a KeyError and posts nothing more. */
  lemma CrashEnds(events: seq<Event>, s: Settings, nets: nat -> Network, i: nat,
                  dispatched: seq<Command>, done: seq<Post>, total: Handled, key: string)
    requires ValidSettings(s) && AllClocksOk(nets) && i < |events|
    requires Classify(events[i], s) == Crash(key)
    requires total == Joined(dispatched, done, BatchRun(events, s, nets, i))
    ensures total == Handled(dispatched, done, Raised(MissingKey(key)))
  {
    assert BatchRun(events, s, nets, i) == Handled([], [], Raised(MissingKey(key)));
    assert dispatched + [] == dispatched && done + [] == done;
  }

  /** A dispatched event posts its command's messages to its channel, then
      the batch goes on unless the command raised. */
  lemma DispatchAdvances(events: seq<Event>, s: Settings, nets: nat -> Network, i: nat,
                         dispatched: seq<Command>, done: seq<Post>, total: Handled, c: Command)
    requires ValidSettings(s) && AllClocksOk(nets) && i < |events|
    requires Classify(events[i], s) == Dispatch(c)
    requires total == Joined(dispatched, done, BatchRun(events, s, nets, i))
    ensures var run := CommandRun(c.text, s, nets(i));
      var posts := PostsTo(c.channel, run.msgs);
      if run.outcome.Raised? then total == Handled(dispatched + [c], done + posts, run.outcome)
      else total == Joined(dispatched + [c], done + posts, BatchRun(events, s, nets, i + 1))
  {
    var run := CommandRun(c.text, s, nets(i));
    var posts := PostsTo(c.channel, run.msgs);
    var r := BatchRun(events, s, nets, i);
    if run.outcome.Raised? {
      assert r == Handled([c], posts, run.outcome);
    } else {
      var rest := BatchRun(events, s, nets, i + 1);
      assert r == Handled([c] + rest.dispatched, posts + rest.posts, rest.outcome);
      Regroup(dispatched, [c], rest.dispatched);
      Regroup(done, posts, rest.posts);
    }
  }

  /** `handle_command`: a fresh `HipSlacker` on the shared client processes
      the command. */
  method HandleCommand(client: SlackClient, s: Settings, command: string, channel: string, user: string,
                       net: Network) returns (outcome: Outcome)
    requires ValidSettings(s) && Contains(command, s.atBot) && ClockOk(net)
    modifies client
    ensures var r := CommandRun(command, s, net);
      client.posted == old(client.posted) + PostsTo(channel, r.msgs) && outcome == r.outcome
  {
    var hipslacker := new HipSlacker(client, s, command, channel, user);
    outcome := hipslacker.ProcessCommand(net);
  }

  /** The body of `parse_slack_output`'s loop on one event: the event is
      tested in the source's order and, when it is for the bot, handled;
      the verdict says which way it went. */
  method HandleEvent(client: SlackClient, s: Settings, e: Event, net: Network) returns (v: Verdict, outcome: Outcome)
    requires ValidSettings(s) && ClockOk(net)
    modifies client
    ensures v == Classify(e, s)
    ensures v.Ignore? ==> client.posted == old(client.posted) && outcome == Completed
    ensures v.Crash? ==> client.posted == old(client.posted) && outcome == Raised(MissingKey(v.key))
    ensures v.Dispatch? ==> var run := CommandRun(v.cmd.text, s, net);
      client.posted == old(client.posted) + PostsTo(v.cmd.channel, run.msgs) && outcome == run.outcome
  {
    if e != map[] && "text" in e && Contains(e["text"], s.atBot) {
      if "user" !in e {
        return Crash("user"), Raised(MissingKey("user"));
      }
      if e["user"] != s.botId {
        if "channel" !in e {
          return Crash("channel"), Raised(MissingKey("channel"));
        }
        v := Dispatch(Command(e["text"], e["channel"], e["user"]));
        outcome := HandleCommand(client, s, e["text"], e["channel"], e["user"], net);
        return;
      }
    }
    return Ignore, Completed;
  }

  /** `parse_slack_output`: None or an empty batch does nothing; otherwise
      each event is tested and, when it is for the bot, handled. */
  method ParseSlackOutput(client: SlackClient, s: Settings, output: Option<seq<Event>>, nets: nat -> Network)
    returns (dispatched: seq<Command>, outcome: Outcome)
    requires ValidSettings(s) && AllClocksOk(nets)
    modifies client
    ensures output.None? ==> client.posted == old(client.posted) && dispatched == [] && outcome == Completed
    ensures output.Some? ==> var r := BatchRun(output.value, s, nets, 0);
      client.posted == old(client.posted) + r.posts && dispatched == r.dispatched && outcome == r.outcome
  {
    dispatched := [];
    if output.None? || |output.value| == 0 {
      return [], Completed;
    }
    var events := output.value;
    ghost var posted0 := client.posted;
    ghost var done: seq<Post> := [];
    ghost var total := BatchRun(events, s, nets, 0);
    assert total == Joined([], [], total) by {
      assert [] + total.dispatched == total.dispatched && [] + total.posts == total.posts;
    }
    assert client.posted == posted0 + [];
    var i := 0;
    while i < |events|
      invariant 0 <= i <= |events|
      invariant client.posted == posted0 + done
      invariant total == Joined(dispatched, done, BatchRun(events, s, nets, i))
    {
      var v;
      v, outcome := HandleEvent(client, s, events[i], nets(i));
      if v.Crash? {
        CrashEnds(events, s, nets, i, dispatched, done, total, v.key);
        return;
      }
      if v.Dispatch? {
        DispatchAdvances(events, s, nets, i, dispatched, done, total, v.cmd);
        ghost var posts := PostsTo(v.cmd.channel, CommandRun(v.cmd.text, s, nets(i)).msgs);
        assert client.posted == (posted0 + done) + posts;
        Regroup(posted0, done, posts);
        dispatched := dispatched + [v.cmd];
        done := done + posts;
        if outcome.Raised? {
          return;
        }
      } else {
        SkipAdvances(events, s, nets, i, dispatched, done, total);
      }
      i := i + 1;
    }
    assert dispatched + [] == dispatched && done + [] == done;
    outcome := Completed;
  }
}
