/** The Slack channel: one webhook POST per USER event of a batch. */
module Slack {
  import opened Notifier

  /** What the webhook receives for one event; the transport is not modelled. */
  datatype SlackRequest = SlackRequest(webhookUrl: string, text: string)

  /** The priority mark Slack messages start with; low-priority messages have none. */
  function Mark(p: EventPriority): string {
    match p
    case HIGH => "\U{1F6A8}"
    case NORMAL => "\U{26A0}\U{FE0F}"
    case LOW => ""
  }

  /** The message text: mark, then prefix and service name in bold, then the event message. */
  function SlackText(titlePrefix: string, event: Event): string {
    Mark(event.priority) + (" *" + titlePrefix + " " + event.service.Name() + "*\n" + event.message)
  }

  /** The priority a Slack text announces by its first character. */
  function PriorityOfText(text: string): EventPriority {
    if text == [] then LOW
    else match PriorityOfIcon(text[0])
      case Some(p) => p
      case None => LOW
  }

  /** The marks agree with the shared title icons, except that LOW shows none. */
  lemma MarkAgreesWithIcon(p: EventPriority)
    ensures p != LOW ==> Mark(p) == Icon(p)
    ensures p == LOW <==> Mark(p) == ""
  {
  }

  /** A reader of the text can tell all three priorities apart, LOW included. */
  lemma SlackTextPriority(titlePrefix: string, event: Event)
    ensures PriorityOfText(SlackText(titlePrefix, event)) == event.priority
  {
    var rest := " *" + titlePrefix + " " + event.service.Name() + "*\n" + event.message;
    assert rest[0] == ' ';
    match event.priority
    case HIGH =>
    case NORMAL =>
    case LOW =>
      assert SlackText(titlePrefix, event) == rest;
  }

  /** The event message closes the text verbatim, after a part that does not depend on it. */
  lemma SlackTextMessage(titlePrefix: string, event: Event)
    ensures SlackText(titlePrefix, event) == SlackText(titlePrefix, event.(message := "")) + event.message
  {
  }

  class SlackNotifier {
    const base: Notifier
    var webhookUrl: Option<ConfigValue>

    /** Never fails: a missing `webhook_url` leaves the URL unset. */
    constructor (titlePrefix: string, config: Config)
      ensures fresh(base)
      ensures base.titlePrefix == titlePrefix && base.config == config
      ensures base.notificationTypes == EnabledTypes(config)
      ensures base.notificationServices == EnabledServices(config)
      ensures webhookUrl == if "webhook_url" in config then Some(config["webhook_url"]) else None
    {
      base := new Notifier(titlePrefix, config);
      if "webhook_url" in config {
        webhookUrl := Some(config["webhook_url"]);
      } else {
        webhookUrl := None;
      }
    }

    /** Sends every USER event of `events`, in order, and nothing else; the
        i-th request issued is answered with `codes[i]`. The result is true
        when some request was not answered 200; a non-200 response does not
        stop the batch. */
    method SendEventsToUser(events: seq<Event>, codes: seq<int>) returns (errors: bool, sent: seq<SlackRequest>)
      requires UserEvents(events) != [] ==> webhookUrl.Some? && webhookUrl.value.Str?
      requires |codes| == |UserEvents(events)|
      ensures |sent| == |UserEvents(events)|
      ensures forall k :: 0 <= k < |sent| ==>
                sent[k].webhookUrl == webhookUrl.value.s &&
                sent[k].text == SlackText(base.titlePrefix, UserEvents(events)[k])
      ensures errors <==> exists k :: 0 <= k < |codes| && codes[k] != StatusOk
    {
      ghost var url := if webhookUrl.Some? && webhookUrl.value.Str? then webhookUrl.value.s else "";
      ghost var titlePrefix := base.titlePrefix;
      ghost var users: seq<Event> := [];
      errors := false;
      sent := [];
      var rest := events;
      while rest != []
        invariant UserEvents(events) == users + UserEvents(rest)
        invariant |sent| == |users|
        invariant forall k :: 0 <= k < |sent| ==> sent[k] == SlackRequest(url, SlackText(titlePrefix, users[k]))
        invariant errors == AnyFailure(codes[..|sent|])
      {
        var event := rest[0];
        UserEventsStep(events, users, rest);
        if event.eventType == USER {
          var text := SlackText(base.titlePrefix, event);
          var code := codes[|sent|];
          AnyFailureStep(codes, |sent|);
          sent := sent + [SlackRequest(webhookUrl.value.s, text)];
          if code != StatusOk {
            errors := true;
          }
        }
        users := users + (if event.eventType == USER then [event] else []);
        rest := rest[1..];
      }
      assert codes[..|sent|] == codes;
      AnyFailureIff(codes);
    }
  }
}
