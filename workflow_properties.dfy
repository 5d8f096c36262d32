/** What the create -> poll -> download workflow of `GeminiService`
    guarantees, for every provider behaviour. */
module WorkflowProperties {
  import opened ProxyApi
  import opened GeminiService

  predicate IsPoll(e: Event) {
    e.Post? && e.request.PollCall?
  }

  predicate IsDownload(e: Event) {
    e.Post? && e.request.DownloadCall?
  }

  /** The number of poll requests among `events`. */
  function CountPolls(events: seq<Event>): nat {
    if events == [] then 0
    else CountPolls(events[..|events| - 1]) + (if IsPoll(events[|events| - 1]) then 1 else 0)
  }

  lemma {:induction false} CountPollsAppend(a: seq<Event>, b: seq<Event>)
    ensures CountPolls(a + b) == CountPolls(a) + CountPolls(b)
    decreases |b|
  {
    if b == [] {
      assert a + b == a;
    } else {
      assert (a + b)[..|a + b| - 1] == a + b[..|b| - 1];
      CountPollsAppend(a, b[..|b| - 1]);
    }
  }

  lemma {:induction false} CountPollsNone(s: seq<Event>)
    requires forall i :: 0 <= i < |s| ==> !IsPoll(s[i])
    ensures CountPolls(s) == 0
    decreases |s|
  {
    if s != [] {
      CountPollsNone(s[..|s| - 1]);
    }
  }

  predicate HasDownload(events: seq<Event>) {
    exists i :: 0 <= i < |events| && IsDownload(events[i])
  }

  /** Only progress reports, pauses and poll requests: what the poll loop does. */
  predicate OnlyPolling(events: seq<Event>) {
    forall i :: 0 <= i < |events| ==> events[i].Progress? || events[i].Wait? || IsPoll(events[i])
  }

  lemma NoDownloadInConcat(a: seq<Event>, b: seq<Event>)
    requires !HasDownload(a) && !HasDownload(b)
    ensures !HasDownload(a + b)
  {
    forall i | 0 <= i < |a + b| ensures !IsDownload((a + b)[i]) {
      if i < |a| {
        assert (a + b)[i] == a[i];
      } else {
        assert (a + b)[i] == b[i - |a|];
      }
    }
  }

  /** The index of the first reply at or after `from` that is not pending,
      or `|replies|` when every one of them is. */
  function FirstSettled(replies: seq<Reply<Operation>>, from: nat): (n: nat)
    requires from <= |replies|
    ensures from <= n <= |replies|
    ensures forall i :: from <= i < n ==> Pending(replies[i])
    ensures n < |replies| ==> !Pending(replies[n])
    decreases |replies| - from
  {
    if from == |replies| || !Pending(replies[from]) then from else FirstSettled(replies, from + 1)
  }

  /** The loop polls up to and including the first reply that is not
      pending, and that reply alone decides how it ends. */
  lemma {:induction false} LoopStopsAtFirstSettled(op: Operation, replies: seq<Reply<Operation>>, count: nat)
    requires count <= |replies| && !op.done
    ensures var n := FirstSettled(replies, count);
      var run := PollLoop(op, replies, count);
      && run.pollCount == n + 1
      && run.end == (if n == |replies| then OutOfReplies else EndOn(replies[n]))
    decreases |replies| - count
  {
    var run := PollLoop(op, replies, count);
    if count < |replies| && Pending(replies[count]) {
      var rest := PollLoop(replies[count].value, replies, count + 1);
      assert run == LoopRun(rest.end, PollRound(count + 1, op) + rest.events, rest.pollCount);
      assert FirstSettled(replies, count) == FirstSettled(replies, count + 1);
      LoopStopsAtFirstSettled(replies[count].value, replies, count + 1);
    } else {
      assert FirstSettled(replies, count) == count;
      assert run.pollCount == count + 1;
    }
  }

  lemma OnlyPollingHasNoDownload(events: seq<Event>)
    requires OnlyPolling(events)
    ensures !HasDownload(events)
  {
  }

  /** A round makes exactly one poll request, at its end. */
  lemma OneRoundOnePoll(k: nat, op: Operation)
    ensures CountPolls(PollRound(k, op)) == 1
    ensures CountPolls(PollRound(k, op)[..2]) == 0
  {
    var round := PollRound(k, op);
    CountPollsNone(round[..2]);
    assert round[..|round| - 1] == round[..2];
  }

  /** The loop's events after `count` earlier polls: as many rounds of
      three events as poll requests made, each ending in its poll request. */
  predicate RoundShaped(run: LoopRun, count: nat) {
    && run.pollCount >= count
    && CountPolls(run.events) == run.pollCount - count
    && |run.events| == 3 * CountPolls(run.events)
    && OnlyPolling(run.events)
    && (run.events != [] ==> IsPoll(run.events[|run.events| - 1]))
  }

  lemma OneRoundShaped(op: Operation, end: LoopEnd, count: nat)
    ensures RoundShaped(LoopRun(end, PollRound(count + 1, op), count + 1), count)
  {
    OneRoundOnePoll(count + 1, op);
  }

  lemma RoundShapedCons(op: Operation, rest: LoopRun, count: nat)
    requires RoundShaped(rest, count + 1)
    ensures RoundShaped(LoopRun(rest.end, PollRound(count + 1, op) + rest.events, rest.pollCount), count)
  {
    var round := PollRound(count + 1, op);
    var ev := round + rest.events;
    OneRoundShaped(op, rest.end, count);
    CountPollsAppend(round, rest.events);
    forall i | 0 <= i < |ev|
      ensures ev[i].Progress? || ev[i].Wait? || IsPoll(ev[i])
    {
      if 3 <= i {
        assert ev[i] == rest.events[i - 3];
      }
    }
    if rest.events != [] {
      assert ev[|ev| - 1] == rest.events[|rest.events| - 1];
    }
  }

  lemma {:induction false} LoopEventsAreRounds(op: Operation, replies: seq<Reply<Operation>>, count: nat)
    requires count <= |replies|
    ensures RoundShaped(PollLoop(op, replies, count), count)
    decreases |replies| - count
  {
    var run := PollLoop(op, replies, count);
    if op.done {
      assert run == LoopRun(Settled(op), [], count);
    } else if count < |replies| && Pending(replies[count]) {
      var rest := PollLoop(replies[count].value, replies, count + 1);
      LoopEventsAreRounds(replies[count].value, replies, count + 1);
      RoundShapedCons(op, rest, count);
      assert run == LoopRun(rest.end, PollRound(count + 1, op) + rest.events, rest.pollCount);
    } else {
      OneRoundShaped(op, run.end, count);
      assert run == LoopRun(run.end, PollRound(count + 1, op), count + 1);
    }
  }

  /** The events end on a whole round: the report quoting the last poll,
      the pause, and that poll request. */
  predicate EndsOnRound(run: LoopRun) {
    && |run.events| >= 3
    && run.events[|run.events| - 3] == Progress(RenderingMessage(run.pollCount))
    && run.events[|run.events| - 2] == Wait
    && IsPoll(run.events[|run.events| - 1])
  }

  lemma EndsOnRoundCons(op: Operation, rest: LoopRun, count: nat)
    requires EndsOnRound(rest)
    ensures EndsOnRound(LoopRun(rest.end, PollRound(count + 1, op) + rest.events, rest.pollCount))
  {
    var ev := PollRound(count + 1, op) + rest.events;
    var k := |rest.events|;
    assert ev[|ev| - 3] == rest.events[k - 3];
    assert ev[|ev| - 2] == rest.events[k - 2];
    assert ev[|ev| - 1] == rest.events[k - 1];
  }

  /** A loop that runs out of replies ends on the round of its last poll. */
  lemma {:induction false} UnansweredRoundIsLast(op: Operation, replies: seq<Reply<Operation>>, count: nat)
    requires count <= |replies|
    requires PollLoop(op, replies, count).end.OutOfReplies?
    ensures EndsOnRound(PollLoop(op, replies, count))
    decreases |replies| - count
  {
    var run := PollLoop(op, replies, count);
    if count < |replies| && Pending(replies[count]) {
      var rest := PollLoop(replies[count].value, replies, count + 1);
      assert run == LoopRun(rest.end, PollRound(count + 1, op) + rest.events, rest.pollCount);
      UnansweredRoundIsLast(replies[count].value, replies, count + 1);
      EndsOnRoundCons(op, rest, count);
    } else {
      assert run == LoopRun(run.end, PollRound(count + 1, op), count + 1);
    }
  }

  /** The poll request at index `i` is the k-th one after `count` earlier
      polls, and the two events before it are the pause and the report
      quoting k times ten seconds. */
  ghost predicate PollNumberedAt(events: seq<Event>, count: nat, i: nat)
    requires i < |events|
  {
    && 2 <= i
    && events[i - 1] == Wait
    && events[i - 2] == Progress(RenderingMessage(count + CountPolls(events[..i]) + 1))
  }

  /** Within each round of `events`, exactly one progress report and one
      pause precede the poll request, each report is followed by its poll,
      and the poll requests are numbered on from `count`. */
  ghost predicate NumberedRounds(events: seq<Event>, count: nat) {
    && (forall i :: 0 <= i < |events| && IsPoll(events[i]) ==> PollNumberedAt(events, count, i))
    && (forall i :: 0 <= i < |events| && events[i].Progress? ==> i + 2 < |events| && IsPoll(events[i + 2]))
  }

  lemma PrefixOfConcat(a: seq<Event>, b: seq<Event>, n: nat)
    requires n <= |b|
    ensures (a + b)[..|a| + n] == a + b[..n]
  {
  }

  /** A poll request after round `count + 1` is numbered as in the rounds that follow. */
  lemma ConsPollAt(op: Operation, rest: seq<Event>, count: nat, i: nat)
    requires NumberedRounds(rest, count + 1)
    requires i < |PollRound(count + 1, op) + rest| && IsPoll((PollRound(count + 1, op) + rest)[i])
    ensures PollNumberedAt(PollRound(count + 1, op) + rest, count, i)
  {
    var round := PollRound(count + 1, op);
    var ev := round + rest;
    OneRoundOnePoll(count + 1, op);
    if i < 3 {
      assert i == 2;
      assert ev[..i] == round[..2];
    } else {
      assert rest[i - 3] == ev[i];
      assert PollNumberedAt(rest, count + 1, i - 3);
      LaterPollNumbered(round, rest, count, i - 3);
    }
  }

  /** The same, for a poll request inside the following rounds. */
  lemma LaterPollNumbered(round: seq<Event>, rest: seq<Event>, count: nat, j: nat)
    requires |round| == 3 && CountPolls(round) == 1
    requires j < |rest| && PollNumberedAt(rest, count + 1, j)
    ensures PollNumberedAt(round + rest, count, j + 3)
  {
    var ev := round + rest;
    assert ev[j + 2] == rest[j - 1] && ev[j + 1] == rest[j - 2];
    PrefixOfConcat(round, rest, j);
    CountPollsAppend(round, rest[..j]);
  }

  /** A progress report after round `count + 1` is followed by its poll two events later. */
  lemma ConsProgressAt(op: Operation, rest: seq<Event>, count: nat, i: nat)
    requires NumberedRounds(rest, count + 1)
    requires i < |PollRound(count + 1, op) + rest| && (PollRound(count + 1, op) + rest)[i].Progress?
    ensures var ev := PollRound(count + 1, op) + rest;
      i + 2 < |ev| && IsPoll(ev[i + 2])
  {
    var ev := PollRound(count + 1, op) + rest;
    if 3 <= i {
      assert rest[i - 3] == ev[i];
      assert ev[i + 2] == rest[i - 1];
    }
  }

  /** Putting round `count + 1` in front of numbered rounds keeps them numbered. */
  lemma NumberedRoundsCons(op: Operation, rest: seq<Event>, count: nat)
    requires NumberedRounds(rest, count + 1)
    ensures NumberedRounds(PollRound(count + 1, op) + rest, count)
  {
    var ev := PollRound(count + 1, op) + rest;
    forall i | 0 <= i < |ev| && IsPoll(ev[i])
      ensures PollNumberedAt(ev, count, i)
    {
      ConsPollAt(op, rest, count, i);
    }
    forall i | 0 <= i < |ev| && ev[i].Progress? ensures i + 2 < |ev| && IsPoll(ev[i + 2]) {
      ConsProgressAt(op, rest, count, i);
    }
  }

  lemma {:induction false} RoundsAreNumbered(op: Operation, replies: seq<Reply<Operation>>, count: nat)
    requires count <= |replies|
    ensures NumberedRounds(PollLoop(op, replies, count).events, count)
    decreases |replies| - count
  {
    if op.done {
      return;
    }
    if count == |replies| || !Pending(replies[count]) {
      assert NumberedRounds([], count + 1);
      NumberedRoundsCons(op, [], count);
      assert PollRound(count + 1, op) + [] == PollLoop(op, replies, count).events;
    } else {
      var rest := PollLoop(replies[count].value, replies, count + 1).events;
      RoundsAreNumbered(replies[count].value, replies, count + 1);
      NumberedRoundsCons(op, rest, count);
    }
  }

  /** What a run does with the operation it settled on: read the video URI
      and download it, or fail on the missing property without downloading. */
  predicate FinishesWith(run: Run, final: Operation, provider: Provider) {
    match VideoUri(final)
    case Missing(p) => run.outcome == Failed(MissingProperty(p)) && !HasDownload(run.events)
    case Found(uri) =>
      && |run.events| > 0
      && run.events[|run.events| - 1] == Post(DownloadCall(uri))
      && run.outcome == DownloadOutcome(provider.download)
  }

  lemma SubmissionMakesNoPoll(request: GenerateBody)
    ensures CountPolls(Submission(request)) == 0 && !HasDownload(Submission(request))
  {
    CountPollsNone(Submission(request));
  }

  lemma FinishAfterSettling(submit: seq<Event>, loop: LoopRun, provider: Provider)
    requires loop.end.Settled? && !HasDownload(submit + loop.events)
    ensures FinishesWith(AfterPolling(submit, loop, provider), loop.end.operation, provider)
    ensures CountPolls(AfterPolling(submit, loop, provider).events) == CountPolls(submit + loop.events)
  {
    var polled := submit + loop.events;
    match VideoUri(loop.end.operation)
    case Missing(p) =>
    case Found(uri) =>
      var tail := [Progress(SYNCING_MESSAGE), Post(DownloadCall(uri))];
      CountPollsAppend(polled, tail);
      CountPollsNone(tail);
  }

  /** A failed or rejected creation call ends the run at once: no poll, no
      download. */
  lemma CreationFailureEndsRun(request: GenerateBody, provider: Provider)
    requires !provider.created.Ok?
    ensures var run := Workflow(request, provider);
      && (provider.created.NotOk? ==>
            run.outcome == Failed(Thrown(CreationFailureText(provider.created.status, provider.created.body))))
      && (provider.created.Rejected? ==> run.outcome == Failed(Thrown(provider.created.message)))
      && CountPolls(run.events) == 0
      && !HasDownload(run.events)
      && run.events[|run.events| - 1] == Post(GenerateCall(request))
  {
    SubmissionMakesNoPoll(request);
  }

  /** When the creation reply is already done, no poll request is made and
      the run goes straight to the video URI. The creation reply's `error` is
      never looked at, so an errored-but-done operation fails only on the
      missing URI. */
  lemma NoPollWhenCreatedDone(request: GenerateBody, provider: Provider)
    requires provider.created.Ok? && provider.created.value.done
    ensures var run := Workflow(request, provider);
      && CountPolls(run.events) == 0
      && FinishesWith(run, provider.created.value, provider)
  {
    var loop := PollLoop(provider.created.value, provider.polls, 0);
    assert loop == LoopRun(Settled(provider.created.value), [], 0);
    SubmissionMakesNoPoll(request);
    assert Submission(request) + loop.events == Submission(request);
    FinishAfterSettling(Submission(request), loop, provider);
  }

  /** How a run that has polled at least once continues, whatever the loop did. */
  lemma AfterPollingFacts(submit: seq<Event>, loop: LoopRun, provider: Provider)
    requires CountPolls(submit) == 0 && !HasDownload(submit)
    requires OnlyPolling(loop.events) && loop.events != [] && IsPoll(loop.events[|loop.events| - 1])
    ensures var run := AfterPolling(submit, loop, provider);
      && CountPolls(run.events) == CountPolls(loop.events)
      && (loop.end.OutOfReplies? ==> run.outcome == Polling && !HasDownload(run.events))
      && (loop.end.Aborted? ==>
            && run.outcome == Failed(loop.end.failure)
            && !HasDownload(run.events)
            && IsPoll(run.events[|run.events| - 1]))
      && (loop.end.Settled? ==> FinishesWith(run, loop.end.operation, provider))
  {
    var polled := submit + loop.events;
    CountPollsAppend(submit, loop.events);
    OnlyPollingHasNoDownload(loop.events);
    NoDownloadInConcat(submit, loop.events);
    assert polled[|polled| - 1] == loop.events[|loop.events| - 1];
    if loop.end.Settled? {
      FinishAfterSettling(submit, loop, provider);
    }
  }

  /** Otherwise the client polls exactly up to and including the first poll
      reply that is not pending, and that reply decides the run: an HTTP
      failure or an operation error (even a done one) aborts with nothing
      after that poll; a done operation is downloaded; when every scripted
      reply is pending the run is still polling. */
  lemma PollingDecidesRun(request: GenerateBody, provider: Provider)
    requires provider.created.Ok? && !provider.created.value.done
    ensures var n := FirstSettled(provider.polls, 0);
      var run := Workflow(request, provider);
      && CountPolls(run.events) == n + 1
      && (n == |provider.polls| ==> run.outcome == Polling && !HasDownload(run.events))
      && (n < |provider.polls| && provider.polls[n].NotOk? ==>
            && run.outcome == Failed(Thrown(PollFailureText(provider.polls[n].body)))
            && !HasDownload(run.events)
            && IsPoll(run.events[|run.events| - 1]))
      && (n < |provider.polls| && provider.polls[n].Rejected? ==>
            && run.outcome == Failed(Thrown(provider.polls[n].message))
            && !HasDownload(run.events)
            && IsPoll(run.events[|run.events| - 1]))
      && (n < |provider.polls| && provider.polls[n].Ok? && provider.polls[n].value.error.Some? ==>
            && run.outcome == Failed(Thrown(ApiErrorText(provider.polls[n].value.error.value)))
            && !HasDownload(run.events)
            && IsPoll(run.events[|run.events| - 1]))
      && (n < |provider.polls| && provider.polls[n].Ok? && provider.polls[n].value.error.None? ==>
            && provider.polls[n].value.done
            && FinishesWith(run, provider.polls[n].value, provider))
  {
    var loop := PollLoop(provider.created.value, provider.polls, 0);
    assert Workflow(request, provider) == AfterPolling(Submission(request), loop, provider);
    LoopStopsAtFirstSettled(provider.created.value, provider.polls, 0);
    LoopEventsAreRounds(provider.created.value, provider.polls, 0);
    SubmissionMakesNoPoll(request);
    AfterPollingFacts(Submission(request), loop, provider);
  }

  /** The events end on a whole round whose report quotes the number of
      poll requests among them. */
  predicate EndsOnCountedRound(ev: seq<Event>) {
    EndsOnRound(LoopRun(OutOfReplies, ev, CountPolls(ev)))
  }

  /** Events put in front of a loop do not change the round it ends on. */
  lemma PrefixKeepsRound(submit: seq<Event>, loop: LoopRun)
    requires EndsOnRound(loop)
    ensures EndsOnRound(LoopRun(loop.end, submit + loop.events, loop.pollCount))
  {
    var ev := submit + loop.events;
    var k := |loop.events|;
    assert ev[|ev| - 3] == loop.events[k - 3];
    assert ev[|ev| - 2] == loop.events[k - 2];
    assert ev[|ev| - 1] == loop.events[k - 1];
  }

  /** Appending a loop that ran out of replies to a poll-free prefix keeps
      its last round last and its poll count. */
  lemma UnansweredRoundEndsRun(submit: seq<Event>, loop: LoopRun, provider: Provider)
    requires CountPolls(submit) == 0 && loop.end.OutOfReplies?
    requires CountPolls(loop.events) == loop.pollCount
    requires EndsOnRound(loop)
    ensures EndsOnCountedRound(AfterPolling(submit, loop, provider).events)
  {
    var ev := submit + loop.events;
    assert AfterPolling(submit, loop, provider).events == ev;
    CountPollsAppend(submit, loop.events);
    PrefixKeepsRound(submit, loop);
    assert LoopRun(loop.end, ev, loop.pollCount) == LoopRun(OutOfReplies, ev, CountPolls(ev));
  }

  /** A run still polling ends on the round of its last poll, whose report
      quotes the number of polls made times ten seconds. */
  lemma PollingRunEndsWithRound(request: GenerateBody, provider: Provider)
    requires Workflow(request, provider).outcome.Polling?
    ensures EndsOnCountedRound(Workflow(request, provider).events)
  {
    var op := provider.created.value;
    var loop := PollLoop(op, provider.polls, 0);
    assert Workflow(request, provider) == AfterPolling(Submission(request), loop, provider);
    UnansweredRoundIsLast(op, provider.polls, 0);
    LoopEventsAreRounds(op, provider.polls, 0);
    SubmissionMakesNoPoll(request);
    UnansweredRoundEndsRun(Submission(request), loop, provider);
  }
}
