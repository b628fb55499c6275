/**
 * The scheduling step: it listens for the booking widget's messages and, on a
 * "scheduled" message, writes the consultation time into the form's
 * `startTime`, remembers it for display and marks the step as scheduled.
 *
 * Date parsing and the locale formatting of dates and times are not modelled;
 * they are supplied as the functions of a `DateLib` value.
 */
module Calendly {
  import opened JsValues
  import opened FormSchema
  import opened Booking

  const ScheduledEvent: string := "calendly.event_scheduled"

  /** What `startTime` is set to whenever a scheduled message cannot be read. */
  const FallbackStartTime: string := "Scheduled - Check your email for details"

  /**
   * `new Date(v)` yields a time value, or `None` where `getTime()` is NaN;
   * `formatDate` and `formatTime` are the locale formatting of a time value.
   */
  datatype DateLib = DateLib(parse: JsValue -> Option<int>, formatDate: int -> string, formatTime: int -> string)

  /** `${formattedDate} at ${formattedTime}`. */
  function Display(t: int, dates: DateLib): (s: string)
    ensures |s| == |dates.formatDate(t)| + 4 + |dates.formatTime(t)|
    ensures s[..|dates.formatDate(t)|] == dates.formatDate(t)
    ensures s[|dates.formatDate(t)|..|dates.formatDate(t)| + 4] == " at "
    ensures s[|dates.formatDate(t)| + 4..] == dates.formatTime(t)
  {
    dates.formatDate(t) + " at " + dates.formatTime(t)
  }

  /** `e.data.event === 'calendly.event_scheduled'`, on message data that is truthy. */
  function IsScheduledMessage(data: JsValue): (b: bool)
    ensures b <==> data.Obj? && "event" in data.props && data.props["event"] == Str(ScheduledEvent)
  {
    Truthy(data) && Lookup(data, "event") == Str(ScheduledEvent)
  }

  /**
   * The start time a scheduled message carries: `invitee.start_time`, or else
   * `event.start_time`; `None` where reading it throws (no payload, no invitee,
   * or no event to fall back on).
   */
  function ResolveStart(data: JsValue): (r: Option<JsValue>)
    requires !Nullish(data)
    ensures r.Some? ==> Truthy(Lookup(data, "payload")) && Truthy(Lookup(Lookup(data, "payload"), "invitee"))
    ensures r.None? && Truthy(Lookup(data, "payload")) && Truthy(Lookup(Lookup(data, "payload"), "invitee")) ==>
      Nullish(Lookup(Lookup(data, "payload"), "event"))
  {
    var payload := Lookup(data, "payload");
    if !Truthy(payload) then None
    else
      var invitee := Lookup(payload, "invitee");
      if !Truthy(invitee) then None
      else
        var fromInvitee := Lookup(invitee, "start_time");
        if Truthy(fromInvitee) then Some(fromInvitee)
        else
          var event := Lookup(payload, "event");
          if Nullish(event) then None else Some(Lookup(event, "start_time"))
  }

  /** What the handler does with one message. */
  datatype Reaction = Ignore | Confirmed(display: string) | Fallback

  /**
   * Only a scheduled message gets a reaction; a confirmed one shows a
   * non-empty date and time.
   */
  function React(data: JsValue, dates: DateLib): (r: Reaction)
    ensures r == Ignore <==> !IsScheduledMessage(data)
    ensures r.Confirmed? ==> r.display != ""
  {
    if !IsScheduledMessage(data) then Ignore
    else
      var start := ResolveStart(data);
      if start.None? || !Truthy(start.value) then Fallback
      else
        var t := dates.parse(start.value);
        if t.None? then Fallback else Confirmed(Display(t.value, dates))
  }

  /** The form's `startTime` and the step's own `scheduledTime` and `isScheduled`. */
  datatype ScheduleState = ScheduleState(startTime: string, scheduledTime: string, isScheduled: bool)

  function Apply(s: ScheduleState, reaction: Reaction): (r: ScheduleState)
    ensures reaction.Ignore? ==> r == s
    ensures reaction.Confirmed? ==> r == ScheduleState(reaction.display, reaction.display, true)
    ensures reaction.Fallback? ==> r == s.(startTime := FallbackStartTime, isScheduled := true)
  {
    match reaction
    case Ignore => s
    case Confirmed(display) => ScheduleState(display, display, true)
    case Fallback => s.(startTime := FallbackStartTime, isScheduled := true)
  }

  /**
   * One message: anything but a scheduled message leaves the state alone; a
   * scheduled one always marks the step scheduled with a non-empty start time,
   * and `scheduledTime` is either kept or set to that start time.
   */
  function HandleEvent(s: ScheduleState, data: JsValue, dates: DateLib): (r: ScheduleState)
    ensures !IsScheduledMessage(data) ==> r == s
    ensures IsScheduledMessage(data) ==> r.isScheduled && r.startTime != ""
    ensures r.scheduledTime == s.scheduledTime || r.scheduledTime == r.startTime
  {
    Apply(s, React(data, dates))
  }

  /** Only a truthy message whose event is the scheduled event changes anything. */
  lemma IgnoredMessages(s: ScheduleState, data: JsValue, dates: DateLib)
    ensures React(data, dates) == Ignore <==> !Truthy(data) || Lookup(data, "event") != Str(ScheduledEvent)
    ensures !IsScheduledMessage(data) ==> HandleEvent(s, data, dates) == s
  {
  }

  /** A scheduled message without a payload or without an invitee falls back. */
  lemma MissingInviteeFallsBack(s: ScheduleState, data: JsValue, dates: DateLib)
    requires IsScheduledMessage(data)
    requires !Truthy(Lookup(data, "payload")) || !Truthy(Lookup(Lookup(data, "payload"), "invitee"))
    ensures React(data, dates) == Fallback
    ensures HandleEvent(s, data, dates) == ScheduleState(FallbackStartTime, s.scheduledTime, true)
  {
  }

  /**
   * The invitee's start time wins; the event's is read only when the
   * invitee's is falsy, and reading it throws when there is no event.
   */
  lemma StartLookupOrder(data: JsValue, payload: JsValue, invitee: JsValue)
    requires !Nullish(data) && Lookup(data, "payload") == payload && Truthy(payload)
    requires Lookup(payload, "invitee") == invitee && Truthy(invitee)
    ensures Truthy(Lookup(invitee, "start_time")) ==> ResolveStart(data) == Some(Lookup(invitee, "start_time"))
    ensures !Truthy(Lookup(invitee, "start_time")) && Nullish(Lookup(payload, "event")) ==> ResolveStart(data) == None
    ensures !Truthy(Lookup(invitee, "start_time")) && !Nullish(Lookup(payload, "event")) ==>
      ResolveStart(data) == Some(Lookup(Lookup(payload, "event"), "start_time"))
  {
  }

  /**
   * A scheduled message is confirmed exactly when a truthy start time is found
   * and parses as a date, and then shows that date and time; every other
   * scheduled message falls back.
   */
  lemma ConfirmedOnlyWithParsedStart(data: JsValue, dates: DateLib)
    requires IsScheduledMessage(data)
    ensures React(data, dates).Confirmed? <==>
      ResolveStart(data).Some? && Truthy(ResolveStart(data).value) && dates.parse(ResolveStart(data).value).Some?
    ensures React(data, dates).Confirmed? ==>
      React(data, dates).display == Display(dates.parse(ResolveStart(data).value).value, dates)
    ensures !React(data, dates).Confirmed? ==> React(data, dates) == Fallback
  {
  }

  /**
   * Every scheduled message leaves a non-empty start time behind, so the last
   * step's gate passes whatever the message held.
   */
  lemma ScheduledUnblocksLastStep(s: ScheduleState, data: JsValue, dates: DateLib, d: FormData, fm: Formats)
    requires IsScheduledMessage(data)
    ensures HandleEvent(s, data, dates).isScheduled
    ensures HandleEvent(s, data, dates).startTime != ""
    ensures StepValid(TotalSteps, d.(startTime := HandleEvent(s, data, dates).startTime), fm)
  {
    StepGate(TotalSteps, d.(startTime := HandleEvent(s, data, dates).startTime), fm);
  }

  /**
   * A start time given only on the event is used when the invitee is present
   * without one, but the same message without an invitee falls back.
   */
  lemma EventStartNeedsInvitee(start: string)
    requires start != ""
    ensures var event := Obj(map["start_time" := Str(start)]);
      && ResolveStart(Obj(map["event" := Str(ScheduledEvent),
                               "payload" := Obj(map["invitee" := Obj(map[]), "event" := event])]))
         == Some(Str(start))
      && ResolveStart(Obj(map["event" := Str(ScheduledEvent), "payload" := Obj(map["event" := event])])) == None
  {
  }

  /** A confirmed message after another sets everything as if it came alone. */
  lemma LaterConfirmationWins(s: ScheduleState, first: JsValue, second: JsValue, dates: DateLib)
    requires React(second, dates).Confirmed?
    ensures HandleEvent(HandleEvent(s, first, dates), second, dates) == HandleEvent(s, second, dates)
  {
  }

  /** The state after a sequence of messages, oldest first. */
  function HandleAll(s: ScheduleState, messages: seq<JsValue>, dates: DateLib): (final: ScheduleState)
    decreases |messages|
  {
    if messages == [] then s
    else HandleEvent(HandleAll(s, messages[..|messages| - 1], dates), messages[|messages| - 1], dates)
  }

  /** `i` is the last scheduled message of `messages`. */
  predicate LastScheduledAt(messages: seq<JsValue>, i: int) {
    0 <= i < |messages| && IsScheduledMessage(messages[i])
    && forall j :: i < j < |messages| ==> !IsScheduledMessage(messages[j])
  }

  /**
   * Last write wins: after any sequence of messages the start time is the one
   * the last scheduled message produced, whatever came before it.
   */
  lemma {:induction false} LastScheduledMessageWins(s: ScheduleState, messages: seq<JsValue>, dates: DateLib, i: int)
    requires LastScheduledAt(messages, i)
    ensures HandleAll(s, messages, dates).startTime == HandleEvent(s, messages[i], dates).startTime
    ensures HandleAll(s, messages, dates).isScheduled
    decreases |messages|
  {
    var n := |messages|;
    var earlier := messages[..n - 1];
    if i == n - 1 {
      var before := HandleAll(s, earlier, dates);
      assert HandleAll(s, messages, dates) == HandleEvent(before, messages[i], dates);
      assert HandleEvent(before, messages[i], dates).startTime == HandleEvent(s, messages[i], dates).startTime;
    } else {
      assert LastScheduledAt(earlier, i) by {
        forall j | i < j < |earlier| ensures !IsScheduledMessage(earlier[j]) {
          assert earlier[j] == messages[j];
        }
        assert earlier[i] == messages[i];
      }
      LastScheduledMessageWins(s, earlier, dates, i);
      assert !IsScheduledMessage(messages[n - 1]);
      assert earlier[i] == messages[i];
    }
  }

  /** Messages that are not scheduled events leave the state as it was. */
  lemma {:induction false} UnscheduledMessagesChangeNothing(s: ScheduleState, messages: seq<JsValue>, dates: DateLib)
    requires forall j :: 0 <= j < |messages| ==> !IsScheduledMessage(messages[j])
    ensures HandleAll(s, messages, dates) == s
    decreases |messages|
  {
    if messages != [] {
      var earlier := messages[..|messages| - 1];
      assert forall j :: 0 <= j < |earlier| ==> earlier[j] == messages[j];
      UnscheduledMessagesChangeNothing(s, earlier, dates);
      IgnoredMessages(s, messages[|messages| - 1], dates);
    }
  }

  /**
   * The step as mounted: the form it writes into, and its own display state.
   */
  class CalendlyStep {
    const form: BookingForm
    const dates: DateLib
    var isScheduled: bool
    var scheduledTime: string

    constructor (form: BookingForm, dates: DateLib)
      ensures this.form == form && this.dates == dates && !isScheduled && scheduledTime == ""
    {
      this.form := form;
      this.dates := dates;
      isScheduled := false;
      scheduledTime := "";
    }

    function State(): (s: ScheduleState)
      reads this, form
    {
      ScheduleState(form.values.startTime, scheduledTime, isScheduled)
    }

    /**
     * The message listener. A scheduled message writes `startTime` with
     * validation, so the start time's error entry is refreshed; any other
     * message leaves the form alone.
     */
    method HandleCalendlyEvent(data: JsValue)
      modifies this, form`values, form`errors
      ensures State() == HandleEvent(old(State()), data, dates)
      ensures form.values == old(form.values).(startTime := State().startTime)
      ensures IsScheduledMessage(data) ==>
        form.errors == Revalidate(old(form.errors), [StartTime], form.values, form.formats)
      ensures !IsScheduledMessage(data) ==> form.errors == old(form.errors)
    {
      var reaction := React(data, dates);
      match reaction
      case Ignore =>
      case Confirmed(display) =>
        form.SetStartTime(display);
        scheduledTime := display;
        isScheduled := true;
      case Fallback =>
        form.SetStartTime(FallbackStartTime);
        isScheduled := true;
    }
  }
}
