/** Events that wake the event-triggered agent: their kinds, how each is
    rendered as a user message, and the dictionary form they are stored in. */
module EventTypes {
  import opened Common

  datatype EventType =
    | WebMessage | ImMessage | EmailReply | GithubPrUpdate | TimerTrigger
    | UserTimeout | ProcessTimeout | SystemAlert

  /** The enum's string value. */
  function TypeValue(t: EventType): string {
    match t
    case WebMessage => "web_message"
    case ImMessage => "im_message"
    case EmailReply => "email_reply"
    case GithubPrUpdate => "github_pr_update"
    case TimerTrigger => "timer_trigger"
    case UserTimeout => "user_timeout"
    case ProcessTimeout => "process_timeout"
    case SystemAlert => "system_alert"
  }

  /** `EventType(s)`: the member whose value is `s`, or None (a ValueError). */
  function ParseType(s: string): (r: Option<EventType>)
    ensures r.Some? ==> TypeValue(r.value) == s
    ensures r.None? ==> forall t: EventType :: TypeValue(t) != s
  {
    if s == "web_message" then Some(WebMessage)
    else if s == "im_message" then Some(ImMessage)
    else if s == "email_reply" then Some(EmailReply)
    else if s == "github_pr_update" then Some(GithubPrUpdate)
    else if s == "timer_trigger" then Some(TimerTrigger)
    else if s == "user_timeout" then Some(UserTimeout)
    else if s == "process_timeout" then Some(ProcessTimeout)
    else if s == "system_alert" then Some(SystemAlert)
    else None
  }

  lemma ParseTypeValue(t: EventType)
    ensures ParseType(TypeValue(t)) == Some(t)
  {
  }

  /** An event. Metadata values are held as the text `str()` gives for them. */
  datatype Event = Event(
    eventType: EventType,
    content: string,
    metadata: map<string, string>,
    timestamp: string,
    eventId: Option<string>)

  /** `metadata.get(key, default)`. */
  function Meta(e: Event, key: string, default: string): (r: string)
    ensures key in e.metadata ==> r == e.metadata[key]
    ensures key !in e.metadata ==> r == default
  {
    if key in e.metadata then e.metadata[key] else default
  }

  /** What `to_user_message` writes between the opening '[' and the content. */
  function Label(e: Event): string {
    match e.eventType
    case WebMessage => "Web Interface] "
    case ImMessage => "IM from " + Meta(e, "sender", "Unknown") + "] "
    case EmailReply =>
      "Email Reply from " + Meta(e, "from", "Unknown") + "]\nSubject: "
      + Meta(e, "subject", "No Subject") + "\n"
    case GithubPrUpdate =>
      "GitHub PR #" + Meta(e, "pr_number", "Unknown") + " "
      + Meta(e, "action", "updated") + "] "
    case TimerTrigger => "Timer " + Meta(e, "timer_id", "Unknown") + " triggered] "
    case UserTimeout =>
      "System Reminder] User has not responded for " + Meta(e, "duration", "unknown") + ". "
    case ProcessTimeout =>
      "System Alert] Background process " + Meta(e, "process_id", "Unknown")
      + " has been running for " + Meta(e, "duration", "unknown") + ". "
    case SystemAlert => "System Alert: " + Meta(e, "alert_type", "general") + "] "
  }

  /** The part of the message before the content. */
  function Header(e: Event): (h: string)
    ensures |h| >= 1 && h[0] == '['
  {
    "[" + Label(e)
  }

  /** `Event.to_user_message`: every message opens with '[' and closes with the
      event's content, which can be read back from the message. */
  function ToUserMessage(e: Event): (r: string)
    ensures StartsWith(r, "[")
    ensures EndsWith(r, e.content)
    ensures r[|r| - |e.content|..] == e.content
  {
    Header(e) + e.content
  }

  /** The header depends only on the type and metadata, so two events that
      differ only in content produce messages that differ only after it. */
  lemma MessageDeterminedByContent(e1: Event, e2: Event)
    requires e1.eventType == e2.eventType && e1.metadata == e2.metadata
    requires ToUserMessage(e1) == ToUserMessage(e2)
    ensures e1.content == e2.content
  {
    assert Header(e1) == Header(e2);
    var m := ToUserMessage(e1);
    assert e1.content == m[|Header(e1)|..];
  }

  /** A value stored in an event dictionary. */
  datatype Field = FStr(s: string) | FNone | FMeta(m: map<string, string>)

  /** `Event.to_dict`. */
  function ToDict(e: Event): (d: map<string, Field>)
    ensures d.Keys == {"event_type", "content", "metadata", "timestamp", "event_id"}
    ensures d["event_type"] == FStr(TypeValue(e.eventType))
    ensures d["event_id"] == FNone <==> e.eventId.None?
  {
    map[
      "event_type" := FStr(TypeValue(e.eventType)),
      "content" := FStr(e.content),
      "metadata" := FMeta(e.metadata),
      "timestamp" := FStr(e.timestamp),
      "event_id" := if e.eventId.Some? then FStr(e.eventId.value) else FNone]
  }

  datatype DictError =
    | KeyError(key: string)
    | ValueError(value: string)
    | TypeMismatch(key: string)

  datatype FromDictResult = Parsed(event: Event) | Failed(err: DictError)

  /** `Event.from_dict`; `now` is the clock reading used when no timestamp is stored. */
  function FromDict(data: map<string, Field>, now: string): (r: FromDictResult)
    ensures "event_type" !in data ==> r == Failed(KeyError("event_type"))
    ensures "event_type" in data && !(data["event_type"].FStr? && ParseType(data["event_type"].s).Some?)
      ==> r.Failed? && r.err.ValueError?
    ensures "event_type" in data && data["event_type"].FStr? && ParseType(data["event_type"].s).Some?
              && "content" !in data
            ==> r == Failed(KeyError("content"))
    ensures r.Parsed? ==> "metadata" !in data ==> r.event.metadata == map[]
    ensures r.Parsed? ==> "timestamp" !in data ==> r.event.timestamp == now
    ensures r.Parsed? ==> "event_id" !in data ==> r.event.eventId == None
    ensures r.Parsed? ==> TypeValue(r.event.eventType) == data["event_type"].s
  {
    if "event_type" !in data then Failed(KeyError("event_type"))
    else
      var tf := data["event_type"];
      var t := if tf.FStr? then ParseType(tf.s) else None;
      if t.None? then Failed(ValueError(if tf.FStr? then tf.s else ""))
      else if "content" !in data then Failed(KeyError("content"))
      else if !data["content"].FStr? then Failed(TypeMismatch("content"))
      else
        var md := if "metadata" in data then data["metadata"] else FMeta(map[]);
        var ts := if "timestamp" in data then data["timestamp"] else FStr(now);
        var id := if "event_id" in data then data["event_id"] else FNone;
        if !md.FMeta? then Failed(TypeMismatch("metadata"))
        else if !ts.FStr? then Failed(TypeMismatch("timestamp"))
        else if id.FMeta? then Failed(TypeMismatch("event_id"))
        else
          Parsed(Event(t.value, data["content"].s, md.m, ts.s,
                       if id.FStr? then Some(id.s) else None))
  }

  /** Storing an event and loading it back gives the same event, whatever the clock says. */
  lemma DictRoundTrip(e: Event, now: string)
    ensures FromDict(ToDict(e), now) == Parsed(e)
  {
    ParseTypeValue(e.eventType);
  }

  /** A dictionary holding all five keys that loads is exactly the stored
      form of the event it loads to. */
  lemma FromDictToDict(data: map<string, Field>, now: string)
    requires FromDict(data, now).Parsed?
    requires data.Keys == {"event_type", "content", "metadata", "timestamp", "event_id"}
    ensures ToDict(FromDict(data, now).event) == data
  {
    var e := FromDict(data, now).event;
    var d := ToDict(e);
    assert d.Keys == data.Keys;
    forall k | k in d.Keys ensures d[k] == data[k] {
    }
  }
}
