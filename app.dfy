/** The App component's generation state: the status line, the history of
    generated videos and the video on display, and how a generation run
    moves them. */
module AppState {
  import opened Common
  import opened Types
  import opened GeminiService
  import opened WorkflowProperties

  const INITIALIZING_MESSAGE := "正在初始化渲染引擎..."
  const SUCCESS_MESSAGE := "生成成功"
  const TIMEOUT_TEXT := "由于服务器连接超时，渲染未能完成。"
  const SAFETY_TEXT := "内容触发安全策略，请更换描述词。"
  const ERROR_13_TEXT := "服务器内部错误(Error 13)，请稍后重试。"

  /** The text shown for a failed generation, chosen from the caught error's
      message by ordered substring tests: the "13" test comes last and so
      wins over the "SAFETY" test. */
  function DisplayMessage(message: Option<string>): (r: string)
    ensures message.Some? && Contains(message.value, "13") ==> r == ERROR_13_TEXT
    ensures message.Some? && Contains(message.value, "SAFETY") && !Contains(message.value, "13") ==> r == SAFETY_TEXT
    ensures !Truthy(message) ==> r == TIMEOUT_TEXT
    ensures Truthy(message) && !Contains(message.value, "SAFETY") && !Contains(message.value, "13") ==> r == message.value
  {
    var shown := Or(message, TIMEOUT_TEXT);
    var shown' := if message.Some? && Contains(message.value, "SAFETY") then SAFETY_TEXT else shown;
    if message.Some? && Contains(message.value, "13") then ERROR_13_TEXT else shown'
  }

  lemma NothingInEmpty(sub: string)
    requires sub != ""
    ensures !Contains("", sub)
  {
  }

  /** A failure is never shown as an empty line: the result is one of the three
      canned texts or the error's own non-empty message. */
  lemma DisplayMessageNeverEmpty(message: Option<string>)
    ensures DisplayMessage(message) != ""
    ensures DisplayMessage(message) in {TIMEOUT_TEXT, SAFETY_TEXT, ERROR_13_TEXT}
            || (Truthy(message) && DisplayMessage(message) == message.value)
  {
    if message == Some("") {
      NothingInEmpty("13");
      NothingInEmpty("SAFETY");
    }
  }

  /** `needle` occurs in `prefix + needle + suffix`. */
  lemma ContainsInfix(prefix: string, needle: string, suffix: string)
    ensures Contains(prefix + needle + suffix, needle)
  {
    var s := prefix + needle + suffix;
    assert s[|prefix|..|prefix| + |needle|] == needle;
    assert OccursAt(s, needle, |prefix|);
  }

  /** An API error with code 13 is always shown as the Error-13 text,
      whatever its message says, SAFETY included. */
  lemma Code13IsInternalError(message: string)
    ensures DisplayMessage(Some(ApiErrorText(ProxyApi.OperationError(13, message)))) == ERROR_13_TEXT
  {
    assert NatToString(13) == "13";
    assert ApiErrorText(ProxyApi.OperationError(13, message)) == "API Error " + "13" + (": " + message);
    ContainsInfix("API Error ", "13", ": " + message);
  }

  /** No progress report comes after position `i`. */
  predicate NoProgressAfter(events: seq<Event>, i: int) {
    forall j | 0 <= j < |events| && i < j :: !events[j].Progress?
  }

  /** The message of the last progress report among `events`, or `initial`
      when there is none. */
  function LastProgress(events: seq<Event>, initial: string): (m: string)
    ensures NoProgressAfter(events, -1) ==> m == initial
    ensures !NoProgressAfter(events, -1) ==>
      exists i | 0 <= i < |events| :: events[i] == Progress(m) && NoProgressAfter(events, i)
  {
    if |events| == 0 then initial
    else if events[|events| - 1].Progress? then
      assert NoProgressAfter(events, |events| - 1);
      events[|events| - 1].message
    else
      var prefix := events[..|events| - 1];
      var m := LastProgress(prefix, initial);
      assert forall i | 0 <= i < |prefix| :: prefix[i] == events[i];
      assert NoProgressAfter(events, -1) <==> NoProgressAfter(prefix, -1);
      assert forall i | 0 <= i < |prefix| :: NoProgressAfter(prefix, i) ==> NoProgressAfter(events, i);
      m
  }

  /** A round that reports, pauses and then polls leaves its own report on
      the status line. */
  lemma LastProgressOfRound(before: seq<Event>, message: string, request: Request, initial: string)
    ensures LastProgress(before + [Progress(message), Wait, Post(request)], initial) == message
  {
    var reported := before + [Progress(message)];
    var paused := reported + [Wait];
    var s := paused + [Post(request)];
    assert s == before + [Progress(message), Wait, Post(request)];
    assert s[..|s| - 1] == paused;
    assert paused[..|paused| - 1] == reported;
    assert LastProgress(reported, initial) == message;
    assert LastProgress(paused, initial) == message;
  }

  /** While the client is still polling, the status line quotes the elapsed
      time of the latest poll: k times ten seconds after k poll requests. */
  lemma PollingShowsLatestRound(request: ProxyApi.GenerateBody, provider: Provider)
    requires Workflow(request, provider).outcome.Polling?
    ensures var run := Workflow(request, provider);
      LastProgress(run.events, INITIALIZING_MESSAGE) == RenderingMessage(CountPolls(run.events))
  {
    PollingRunEndsWithRound(request, provider);
    CountedRoundIsShown(Workflow(request, provider).events, INITIALIZING_MESSAGE);
  }

  /** Events ending on a counted round show that round's report. */
  lemma CountedRoundIsShown(ev: seq<Event>, initial: string)
    requires EndsOnCountedRound(ev)
    ensures LastProgress(ev, initial) == RenderingMessage(CountPolls(ev))
  {
    var before := ev[..|ev| - 3];
    assert ev == before + [ev[|ev| - 3], ev[|ev| - 2], ev[|ev| - 1]];
    LastProgressOfRound(before, RenderingMessage(CountPolls(ev)), ev[|ev| - 1].request, initial);
  }

  class App {
    var status: GenerationStatus
    var history: seq<VideoResult>
    var selectedVideo: Option<VideoResult>

    /** The state before anything happens: idle, no history, nothing selected. */
    constructor ()
      ensures status == GenerationStatus(Idle, "")
      ensures history == [] && selectedVideo == None
    {
      status := GenerationStatus(Idle, "");
      history := [];
      selectedVideo := None;
    }

    /** The form's loading flag. */
    function IsLoading(): (loading: bool)
      reads this
      ensures loading <==> status.step == Generating
    {
      status.step == Generating
    }

    method StartGeneration()
      modifies this
      ensures status == GenerationStatus(Generating, INITIALIZING_MESSAGE)
      ensures history == old(history) && selectedVideo == old(selectedVideo)
    {
      status := GenerationStatus(Generating, INITIALIZING_MESSAGE);
    }

    /** A progress callback: only the message changes. */
    method OnProgress(message: string)
      modifies this
      ensures status == old(status).(message := message)
      ensures history == old(history) && selectedVideo == old(selectedVideo)
    {
      status := status.(message := message);
    }

    /** The progress callbacks of a run, in order: the status line ends on
        the latest report, or keeps its message when there is none. */
    method RelayProgress(events: seq<Event>)
      modifies this
      ensures status == old(status).(message := LastProgress(events, old(status.message)))
      ensures history == old(history) && selectedVideo == old(selectedVideo)
    {
      var i := 0;
      while i < |events|
        invariant 0 <= i <= |events|
        invariant status == old(status).(message := LastProgress(events[..i], old(status.message)))
        invariant history == old(history) && selectedVideo == old(selectedVideo)
      {
        assert events[..i + 1][..i] == events[..i];
        if events[i].Progress? {
          OnProgress(events[i].message);
        }
        i := i + 1;
      }
      assert events[..|events|] == events;
    }

    /** A finished generation is put in front of the history and shown. */
    method RecordSuccess(url: string, params: GenerateVideoParams, now: int)
      modifies this
      ensures history == [VideoResult(url, params, now)] + old(history)
      ensures selectedVideo == Some(VideoResult(url, params, now))
      ensures status == GenerationStatus(Success, SUCCESS_MESSAGE)
    {
      var result := VideoResult(url, params, now);
      history := [result] + history;
      selectedVideo := Some(result);
      status := GenerationStatus(Success, SUCCESS_MESSAGE);
    }

    /** A failed generation only changes the status line. */
    method RecordFailure(message: Option<string>)
      modifies this
      ensures status == GenerationStatus(Error, DisplayMessage(message))
      ensures history == old(history) && selectedVideo == old(selectedVideo)
    {
      var displayMessage := Or(message, TIMEOUT_TEXT);
      if message.Some? && Contains(message.value, "SAFETY") {
        displayMessage := SAFETY_TEXT;
      }
      if message.Some? && Contains(message.value, "13") {
        displayMessage := ERROR_13_TEXT;
      }
      status := GenerationStatus(Error, displayMessage);
    }

    /** handleGenerate: run the client workflow against `provider`, relaying
        its progress reports, and record the outcome at time `now`. A run
        still polling leaves the status on the latest progress report. */
    method HandleGenerate(params: GenerateVideoParams, provider: Provider, now: int)
      modifies this
      ensures var run := Workflow(RequestFor(params), provider);
        match run.outcome
        case Done(url) =>
          && history == [VideoResult(url, params, now)] + old(history)
          && selectedVideo == Some(VideoResult(url, params, now))
          && status == GenerationStatus(Success, SUCCESS_MESSAGE)
        case Failed(f) =>
          && history == old(history) && selectedVideo == old(selectedVideo)
          && status == GenerationStatus(Error, DisplayMessage(Some(FailureMessage(f))))
        case Polling =>
          && history == old(history) && selectedVideo == old(selectedVideo)
          && status == GenerationStatus(Generating, LastProgress(run.events, INITIALIZING_MESSAGE))
    {
      StartGeneration();
      var outcome, events := GenerateVideo(params, provider);
      RelayProgress(events);
      match outcome
      case Done(url) =>
        RecordSuccess(url, params, now);
      case Failed(f) =>
        RecordFailure(Some(FailureMessage(f)));
      case Polling =>
    }

    /** Clicking an entry of the history puts it on display. */
    method SelectFromHistory(index: nat)
      requires index < |history|
      modifies this
      ensures selectedVideo == Some(old(history)[index])
      ensures status == old(status) && history == old(history)
    {
      selectedVideo := Some(history[index]);
    }

    /** Dismissing the error line returns to idle with an empty message. */
    method DismissError()
      modifies this
      ensures status == GenerationStatus(Idle, "")
      ensures history == old(history) && selectedVideo == old(selectedVideo)
    {
      status := GenerationStatus(Idle, "");
    }
  }
}
