/**
 * The decision logic of the try-on page: how the first try-on answer is
 * dispatched, how each status poll is classified, and how the poller's state
 * moves on a poll tick and on the 60-second deadline. Time is abstract: a
 * tick is one firing of the 2-second interval, the deadline one firing of the
 * 60-second timeout.
 */
module Poll {
  import opened Wrappers
  import opened Strings
  import opened Http

  /** Prefix the page puts before an inline base64 JPEG. */
  const INLINE_PREFIX := "data:image/jpeg;base64,"

  /** The answer of `/api/tryon` as the page reads it. */
  datatype TryOnReply = TryOnReply(eventId: Option<string>, mediaUrls: Option<seq<string>>, outputImage: Option<string>)

  /** The outcome of the page's `fetch("/api/tryon")`. */
  datatype SubmitOutcome =
    | SubmitOk(reply: TryOnReply)
    | SubmitNotOk   // the page reads the error body and throws
    | SubmitThrew   // network failure, or an ok body that is not JSON

  /** What the page does with the first try-on answer. */
  datatype SubmitAction =
    | StartPolling(eventId: string)
    | ShowResult(result: string)
    | NoAction      // nothing to show: the in-progress flag stays on
    | SubmitFailed  // caught: alert and clear the in-progress flag

  /** The inline result as the page displays it. */
  function InlineImage(outputImage: string): (r: string)
    ensures StartsWith(r, INLINE_PREFIX) && r[|INLINE_PREFIX|..] == outputImage
  {
    INLINE_PREFIX + outputImage
  }

  /** A truthy event id, else a non-empty media list, else a truthy inline image. */
  function Dispatch(outcome: SubmitOutcome): (a: SubmitAction)
    ensures outcome.SubmitOk? && Truthy(outcome.reply.eventId) ==> a == StartPolling(outcome.reply.eventId.value)
    ensures outcome.SubmitOk? && !Truthy(outcome.reply.eventId) && HasMedia(outcome.reply.mediaUrls) ==>
              a == ShowResult(outcome.reply.mediaUrls.value[0])
    ensures outcome.SubmitOk? && !Truthy(outcome.reply.eventId) && !HasMedia(outcome.reply.mediaUrls) &&
              Truthy(outcome.reply.outputImage) ==>
              a == ShowResult(InlineImage(outcome.reply.outputImage.value))
    ensures a == NoAction <==>
              outcome.SubmitOk? && !Truthy(outcome.reply.eventId) && !HasMedia(outcome.reply.mediaUrls) &&
              !Truthy(outcome.reply.outputImage)
    ensures a == SubmitFailed <==> !outcome.SubmitOk?
  {
    match outcome
    case SubmitOk(reply) =>
      if Truthy(reply.eventId) then StartPolling(reply.eventId.value)
      else if HasMedia(reply.mediaUrls) then ShowResult(reply.mediaUrls.value[0])
      else if Truthy(reply.outputImage) then ShowResult(InlineImage(reply.outputImage.value))
      else NoAction
    case _ => SubmitFailed
  }

  /** `mediaUrls && mediaUrls.length > 0` */
  predicate HasMedia(mediaUrls: Option<seq<string>>) {
    mediaUrls.Some? && |mediaUrls.value| > 0
  }

  /** The answer of `/api/tryon-status` as the page reads it. */
  datatype StatusReply = StatusReply(status: Option<string>, mediaUrls: Option<seq<string>>, outputImage: Option<string>)

  /** One poll, as the interval callback sees it. */
  datatype PollResponse =
    | Answered(reply: StatusReply)
    | NotOkAnswer   // `if (!statusResponse.ok) return;`
    | PollThrew     // network failure or a body that is not JSON

  /** What one poll decides. */
  datatype Verdict =
    | ShowMedia(url: string)
    | Completed(result: Option<string>)   // the result to set, if any
    | Abort
    | KeepPolling

  /** `status` lower-cased is "ready" or "completed". */
  predicate IsDoneStatus(status: Option<string>) {
    Truthy(status) && (Lower(status.value) == "ready" || Lower(status.value) == "completed")
  }

  /** The status test is case-insensitive. */
  lemma DoneStatusIgnoresCase(s: string, t: string)
    requires Lower(s) == Lower(t)
    ensures IsDoneStatus(Some(s)) <==> IsDoneStatus(Some(t))
  {
    assert s == "" <==> t == "";
  }

  /** The classification of an answered poll. */
  function Classify(reply: StatusReply): (v: Verdict)
    // Media URLs win over everything else in the same answer.
    ensures HasMedia(reply.mediaUrls) ==> v == ShowMedia(reply.mediaUrls.value[0])
    ensures v.ShowMedia? ==> HasMedia(reply.mediaUrls)
    // Without media: done on "ready"/"completed" in any case, or on an inline image;
    // a result is set only when there is an inline image.
    ensures v.Completed? <==> !HasMedia(reply.mediaUrls) && (IsDoneStatus(reply.status) || Truthy(reply.outputImage))
    ensures v.Completed? ==>
              (v.result.Some? <==> Truthy(reply.outputImage)) &&
              (v.result.Some? ==> v.result.value == InlineImage(reply.outputImage.value))
    // "failed" is matched exactly, and only after the success test.
    ensures v == Abort <==>
              !HasMedia(reply.mediaUrls) && !IsDoneStatus(reply.status) && !Truthy(reply.outputImage) &&
              reply.status == Some("failed")
    ensures v == KeepPolling <==>
              !HasMedia(reply.mediaUrls) && !IsDoneStatus(reply.status) && !Truthy(reply.outputImage) &&
              reply.status != Some("failed")
  {
    if HasMedia(reply.mediaUrls) then ShowMedia(reply.mediaUrls.value[0])
    else if IsDoneStatus(reply.status) || Truthy(reply.outputImage) then
      Completed(if Truthy(reply.outputImage) then Some(InlineImage(reply.outputImage.value)) else None)
    else if reply.status == Some("failed") then Abort
    else KeepPolling
  }

  /** A non-ok answer keeps the poller going; only an exception aborts it. */
  function ClassifyResponse(response: PollResponse): (v: Verdict)
    ensures response.NotOkAnswer? ==> v == KeepPolling
    ensures response.PollThrew? ==> v == Abort
    ensures response.Answered? ==> v == Classify(response.reply)
  {
    match response
    case Answered(reply) => Classify(reply)
    case NotOkAnswer => KeepPolling
    case PollThrew => Abort
  }

  datatype Phase = Pending | Succeeded | Failed | Stopped

  /** The page's `alert` calls, recorded instead of shown. */
  datatype Alert = SearchFailedAlert | TryOnFailedAlert | PollingFailedAlert | TimedOutAlert

  /**
   * The part of the page one poller reads and writes: its phase, the shown
   * result, the in-progress flag, the number of status queries it has made,
   * the alerts raised, and whether the 60-second timer is still to fire.
   */
  datatype PollView = PollView(phase: Phase, result: Option<string>, tryingOn: bool, queries: nat,
                               alerts: seq<Alert>, deadlineArmed: bool)

  /**
   * One firing of the interval. Once the poller has left `Pending` its
   * interval is cleared, so nothing happens and nothing is queried.
   */
  function TickStep(v: PollView, response: PollResponse): (w: PollView)
    ensures v.phase != Pending ==> w == v
    ensures v.phase == Pending ==> w.queries == v.queries + 1 && w.deadlineArmed == v.deadlineArmed
    ensures v.phase == Pending ==>
              match ClassifyResponse(response)
              case ShowMedia(url) =>
                w == v.(phase := Succeeded, result := Some(url), tryingOn := false, queries := w.queries)
              case Completed(result) =>
                w == v.(phase := Succeeded, result := if result.Some? then result else v.result, tryingOn := false,
                        queries := w.queries)
              case Abort =>
                w == v.(phase := Failed, tryingOn := false, alerts := v.alerts + [PollingFailedAlert], queries := w.queries)
              case KeepPolling => w == v.(queries := w.queries)
  {
    if v.phase != Pending then v
    else
      var queried := v.(queries := v.queries + 1);
      match ClassifyResponse(response)
      case ShowMedia(url) => queried.(phase := Succeeded, result := Some(url), tryingOn := false)
      case Completed(result) =>
        queried.(phase := Succeeded, result := if result.Some? then result else v.result, tryingOn := false)
      case Abort => queried.(phase := Failed, tryingOn := false, alerts := v.alerts + [PollingFailedAlert])
      case KeepPolling => queried
  }

  /**
   * The 60-second timeout, as written: it always stops polling, but alerts
   * and clears the in-progress flag only if the flag `captured` when the
   * try-on began was set. It is never cancelled, so it also fires after a
   * success or a failure.
   */
  function TimeoutStep(v: PollView, captured: bool): (w: PollView)
    ensures !v.deadlineArmed ==> w == v
    ensures v.deadlineArmed ==>
              !w.deadlineArmed && w.phase != Pending && w.queries == v.queries && w.result == v.result &&
              (v.phase != Pending ==> w.phase == v.phase) &&
              (v.phase == Pending ==> w.phase == Stopped) &&
              (w.tryingOn == (v.tryingOn && !captured)) &&
              (w.alerts == if captured then v.alerts + [TimedOutAlert] else v.alerts)
  {
    if !v.deadlineArmed then v
    else
      v.(deadlineArmed := false,
         phase := if v.phase == Pending then Stopped else v.phase,
         tryingOn := if captured then false else v.tryingOn,
         alerts := if captured then v.alerts + [TimedOutAlert] else v.alerts)
  }

  /**
   * The timeout as the page evidently intends it: when this poller's attempt
   * is still pending at the time the timer fires, stop it, clear the flag
   * and alert if the flag was set. A timer outliving its finished attempt
   * leaves the flag, which may belong to a later attempt, alone.
   */
  function TimeoutStepLive(v: PollView): (w: PollView)
    ensures !v.deadlineArmed ==> w == v
    ensures v.deadlineArmed ==>
              !w.deadlineArmed && w.phase != Pending && w.queries == v.queries && w.result == v.result &&
              (w.tryingOn <==> v.tryingOn && v.phase != Pending) &&
              (w.alerts == if v.phase == Pending && v.tryingOn then v.alerts + [TimedOutAlert] else v.alerts)
  {
    if !v.deadlineArmed then v
    else if v.phase == Pending then
      v.(deadlineArmed := false, phase := Stopped, tryingOn := false,
         alerts := if v.tryingOn then v.alerts + [TimedOutAlert] else v.alerts)
    else
      v.(deadlineArmed := false)
  }

  /** The poller's view right after a try-on answer with an event id. */
  function Started(result: Option<string>, alerts: seq<Alert>): (v: PollView)
    ensures v.phase == Pending && v.tryingOn && v.queries == 0 && v.deadlineArmed
  {
    PollView(Pending, result, true, 0, alerts, true)
  }

  datatype Event = PollEvent(response: PollResponse) | DeadlineEvent

  function Step(v: PollView, captured: bool, e: Event): PollView {
    match e
    case PollEvent(response) => TickStep(v, response)
    case DeadlineEvent => TimeoutStep(v, captured)
  }

  /** The view after a sequence of events. */
  function Run(v: PollView, captured: bool, events: seq<Event>): PollView
    decreases |events|
  {
    if events == [] then v else Run(Step(v, captured, events[0]), captured, events[1..])
  }

  lemma {:induction false} RunAppend(v: PollView, captured: bool, first: seq<Event>, second: seq<Event>)
    ensures Run(v, captured, first + second) == Run(Run(v, captured, first), captured, second)
    decreases |first|
  {
    if first != [] {
      var u := Step(v, captured, first[0]);
      assert (first + second)[0] == first[0];
      assert (first + second)[1..] == first[1..] + second;
      assert Run(v, captured, first + second) == Run(u, captured, first[1..] + second);
      RunAppend(u, captured, first[1..], second);
    } else {
      assert first + second == second;
    }
  }

  /**
   * Terminal phases are absorbing: after success, failure or the deadline,
   * no event changes the phase or the result, and no status query is made.
   */
  lemma {:induction false} TerminalIsAbsorbing(v: PollView, captured: bool, events: seq<Event>)
    requires v.phase != Pending
    ensures var w := Run(v, captured, events);
            w.phase == v.phase && w.result == v.result && w.queries == v.queries
    decreases |events|
  {
    if events != [] {
      TerminalIsAbsorbing(Step(v, captured, events[0]), captured, events[1..]);
    }
  }

  /** Once any prefix of the events has ended polling, the rest issues no query. */
  lemma NoQueryAfterTerminal(v: PollView, captured: bool, before: seq<Event>, after: seq<Event>)
    requires Run(v, captured, before).phase != Pending
    ensures Run(v, captured, before + after).queries == Run(v, captured, before).queries
    ensures Run(v, captured, before + after).phase == Run(v, captured, before).phase
  {
    RunAppend(v, captured, before, after);
    TerminalIsAbsorbing(Run(v, captured, before), captured, after);
  }

  function TimeoutAlerts(alerts: seq<Alert>): nat
    decreases |alerts|
  {
    if alerts == [] then 0
    else TimeoutAlerts(alerts[..|alerts| - 1]) + (if alerts[|alerts| - 1] == TimedOutAlert then 1 else 0)
  }

  lemma TimeoutAlertsSnoc(alerts: seq<Alert>, a: Alert)
    ensures TimeoutAlerts(alerts + [a]) == TimeoutAlerts(alerts) + (if a == TimedOutAlert then 1 else 0)
  {
    assert (alerts + [a])[..|alerts|] == alerts;
  }

  /** One event adds a timeout alert only by disarming the deadline. */
  lemma TimeoutAlertsStep(v: PollView, captured: bool, e: Event)
    ensures var u := Step(v, captured, e);
            TimeoutAlerts(u.alerts) + (if u.deadlineArmed then 1 else 0) <=
            TimeoutAlerts(v.alerts) + (if v.deadlineArmed then 1 else 0)
    ensures !v.deadlineArmed ==>
              !Step(v, captured, e).deadlineArmed && TimeoutAlerts(Step(v, captured, e).alerts) == TimeoutAlerts(v.alerts)
  {
    TimeoutAlertsSnoc(v.alerts, PollingFailedAlert);
    TimeoutAlertsSnoc(v.alerts, TimedOutAlert);
  }

  /** Over any sequence of events the timeout is reported at most once. */
  lemma {:induction false} TimeoutReportedAtMostOnce(v: PollView, captured: bool, events: seq<Event>)
    ensures TimeoutAlerts(Run(v, captured, events).alerts) <= TimeoutAlerts(v.alerts) + (if v.deadlineArmed then 1 else 0)
    decreases |events|
  {
    if events != [] {
      TimeoutAlertsStep(v, captured, events[0]);
      TimeoutReportedAtMostOnce(Step(v, captured, events[0]), captured, events[1..]);
    }
  }

  /** With the captured flag set, a run that reaches the deadline reports it exactly once. */
  lemma {:induction false} TimeoutReportedOnceWhenCaptured(v: PollView, before: seq<Event>, after: seq<Event>)
    requires v.deadlineArmed && TimeoutAlerts(v.alerts) == 0
    requires forall i :: 0 <= i < |before| ==> before[i] != DeadlineEvent
    ensures TimeoutAlerts(Run(v, true, before + [DeadlineEvent] + after).alerts) == 1
    decreases |before|
  {
    if before == [] {
      var u := TimeoutStep(v, true);
      TimeoutAlertsSnoc(v.alerts, TimedOutAlert);
      assert ([DeadlineEvent] + after)[1..] == after;
      TimeoutAlertsNeverGrow(u, true, after);
    } else {
      var u := Step(v, true, before[0]);
      assert before[0].PollEvent?;
      TimeoutAlertsSnoc(v.alerts, PollingFailedAlert);
      assert (before + [DeadlineEvent] + after)[1..] == before[1..] + [DeadlineEvent] + after;
      TimeoutReportedOnceWhenCaptured(u, before[1..], after);
    }
  }

  /** After the deadline has fired, no further timeout alert is raised. */
  lemma {:induction false} TimeoutAlertsNeverGrow(v: PollView, captured: bool, events: seq<Event>)
    requires !v.deadlineArmed
    ensures TimeoutAlerts(Run(v, captured, events).alerts) == TimeoutAlerts(v.alerts)
    decreases |events|
  {
    if events != [] {
      TimeoutAlertsStep(v, captured, events[0]);
      TimeoutAlertsNeverGrow(Step(v, captured, events[0]), captured, events[1..]);
    }
  }

  /**
   * The timeout as written, with the flag captured while the page was idle
   * (the only state in which the try-on button can be pressed): when the
   * deadline fires on a job that never finished, the in-progress flag stays
   * on for good, whatever happens afterwards.
   */
  lemma {:induction false} StaleFlagLeavesTryOnInProgress(v: PollView, events: seq<Event>)
    requires v.phase == Pending && v.tryingOn && v.deadlineArmed
    ensures Run(v, false, [DeadlineEvent] + events).tryingOn
  {
    var u := TimeoutStep(v, false);
    assert ([DeadlineEvent] + events)[1..] == events;
    TimedOutKeepsFlag(u, events);
  }

  lemma {:induction false} TimedOutKeepsFlag(v: PollView, events: seq<Event>)
    requires v.phase == Stopped && v.tryingOn && !v.deadlineArmed
    ensures Run(v, false, events).tryingOn
    decreases |events|
  {
    if events != [] {
      TimedOutKeepsFlag(Step(v, false, events[0]), events[1..]);
    }
  }

  /** The intended timeout ends an attempt still in progress, with one alert. */
  lemma LiveTimeoutEndsAttempt(v: PollView)
    requires v.deadlineArmed && v.tryingOn && v.phase == Pending
    ensures var w := TimeoutStepLive(v);
            !w.tryingOn && w.phase == Stopped && w.alerts == v.alerts + [TimedOutAlert]
  {
  }

  /** The intended timeout of a finished attempt neither alerts nor touches the flag. */
  lemma LiveTimeoutSparesLaterAttempt(v: PollView)
    requires v.deadlineArmed && v.phase != Pending
    ensures var w := TimeoutStepLive(v);
            w.tryingOn == v.tryingOn && w.phase == v.phase && w.alerts == v.alerts && w.result == v.result
  {
  }

  /**
   * Two answers that are still in progress, then a completed one with an
   * inline image: the result is shown on the third poll, after exactly three
   * queries.
   */
  lemma ThirdPollSucceeds(image: string, captured: bool)
    requires image != ""
    ensures var processing := PollEvent(Answered(StatusReply(Some("processing"), None, None)));
            var done := PollEvent(Answered(StatusReply(Some("completed"), None, Some(image))));
            var w := Run(Started(None, []), captured, [processing, processing, done]);
            w.phase == Succeeded && w.result == Some(InlineImage(image)) && w.queries == 3 && !w.tryingOn
  {
    var processing := PollEvent(Answered(StatusReply(Some("processing"), None, None)));
    var done := PollEvent(Answered(StatusReply(Some("completed"), None, Some(image))));
    assert Lower("processing") == "processing";
    assert Lower("completed") == "completed";
    var v0 := Started(None, []);
    var v1 := Step(v0, captured, processing);
    assert v1.phase == Pending && v1.queries == 1;
    var v2 := Step(v1, captured, processing);
    assert v2.phase == Pending && v2.queries == 2;
    var v3 := Step(v2, captured, done);
    assert v3.phase == Succeeded && v3.queries == 3;
    assert [processing, processing, done][1..] == [processing, done];
    assert [processing, done][1..] == [done];
    assert Run(v0, captured, [processing, processing, done]) == Run(v1, captured, [processing, done]);
    assert Run(v1, captured, [processing, done]) == Run(v2, captured, [done]);
    assert Run(v2, captured, [done]) == Run(v3, captured, []);
  }

  /** "FAILED" is not "failed": an upper-case failure keeps the poller waiting. */
  lemma UpperCaseFailureKeepsPolling()
    ensures Classify(StatusReply(Some("FAILED"), None, None)) == KeepPolling
  {
    assert Lower("FAILED") == "failed";
  }
}
