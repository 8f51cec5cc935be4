/** The Telegram channel: one Bot API `sendMessage` call per USER event of a batch. */
module Telegram {
  import opened Notifier

  const ApiHost: string := "api.telegram.org"

  /** The JSON body of a `sendMessage` call, as a record of its fields. */
  datatype TelegramPayload = TelegramPayload(
    chatId: ConfigValue,
    text: string,
    parseMode: string,
    disableNotification: bool)

  /** One POST to the Bot API; the transport is not modelled. */
  datatype TelegramRequest = TelegramRequest(host: string, path: string, payload: TelegramPayload)

  // ---------------------------------------------------------------------
  // Formatting configuration values into the request path

  function DigitChar(d: nat): char
    requires d < 10
  {
    (d + '0' as int) as char
  }

  /** The decimal digits of a natural number, most significant first. */
  function Digits(n: nat): (r: string)
    ensures |r| >= 1
    ensures forall k :: 0 <= k < |r| ==> '0' <= r[k] <= '9'
    ensures n == 0 <==> r == "0"
    ensures r[0] != '0' || n == 0
  {
    if n < 10 then [DigitChar(n)] else Digits(n / 10) + [DigitChar(n % 10)]
  }

  /** The decimal spelling of an integer: a minus sign exactly for negative
      numbers, then digits without a leading zero. */
  function DecimalString(n: int): (r: string)
    ensures |r| >= 1 && (r[0] == '-' <==> n < 0)
    ensures forall k :: (if n < 0 then 1 else 0) <= k < |r| ==> '0' <= r[k] <= '9'
    ensures n < 0 ==> |r| >= 2 && r[1] != '0'
    ensures n >= 0 && |r| > 1 ==> r[0] != '0'
  {
    if n < 0 then "-" + Digits(-n) else Digits(n)
  }

  /** Reads a string of decimal digits, most significant first. */
  function DigitsValue(s: string): int {
    if s == [] then 0 else 10 * DigitsValue(s[..|s| - 1]) + (s[|s| - 1] as int - '0' as int)
  }

  /** Reads an optionally signed decimal spelling. */
  function DecimalValue(s: string): int {
    if s != [] && s[0] == '-' then -DigitsValue(s[1..]) else DigitsValue(s)
  }

  lemma {:induction false} DigitsRoundTrip(n: nat)
    ensures DigitsValue(Digits(n)) == n
  {
    if n >= 10 {
      var front := Digits(n / 10);
      var r := front + [DigitChar(n % 10)];
      assert r[..|r| - 1] == front;
      DigitsRoundTrip(n / 10);
    }
  }

  /** Reading the spelling of an integer back gives the integer, so distinct
      integer tokens spell distinct paths. */
  lemma DecimalRoundTrip(n: int)
    ensures DecimalValue(DecimalString(n)) == n
  {
    if n < 0 {
      assert DecimalString(n)[1..] == Digits(-n);
      DigitsRoundTrip(-n);
    } else {
      DigitsRoundTrip(n);
    }
  }

  /** How a configuration value prints inside a formatted string. */
  function Format(v: ConfigValue): string {
    match v
    case Null => "None"
    case Bool(b) => if b then "True" else "False"
    case Int(i) => DecimalString(i)
    case Str(s) => s
  }

  // ---------------------------------------------------------------------
  // Requests

  /** The message text: the shared title in bold, then the event message. */
  function TelegramText(titlePrefix: string, event: Event): string {
    "*" + Title(titlePrefix, event) + "*\n" + event.message
  }

  /** The Bot API path for a bot token, formatted as the configuration holds it. */
  function SendMessagePath(botToken: ConfigValue): string {
    "/bot" + Format(botToken) + "/sendMessage"
  }

  /** The request that carries one event. */
  function RequestFor(botToken: ConfigValue, chatId: ConfigValue, titlePrefix: string, event: Event): TelegramRequest {
    TelegramRequest(
      ApiHost,
      SendMessagePath(botToken),
      TelegramPayload(chatId, TelegramText(titlePrefix, event), "Markdown", event.priority == LOW))
  }

  /** A request goes to the Bot API host under the bot's path, to the
      configured chat, silently exactly when the event has LOW priority; its
      bold part is the shared title, which reads back into the event's
      priority, the prefix and the event's service, and the event message
      follows verbatim. */
  lemma RequestForContents(botToken: ConfigValue, chatId: ConfigValue, titlePrefix: string, event: Event)
    ensures var r := RequestFor(botToken, chatId, titlePrefix, event);
            var t := r.payload.text;
            var n := |Title(titlePrefix, event)|;
            r.host == ApiHost && r.path == "/bot" + Format(botToken) + "/sendMessage" &&
            r.payload.chatId == chatId && r.payload.parseMode == "Markdown" &&
            (r.payload.disableNotification <==> event.priority == LOW) &&
            n + 3 <= |t| && t[0] == '*' && t[n + 1..n + 3] == "*\n" &&
            ParseTitle(t[1..n + 1]) == Some(TitleParts(event.priority, titlePrefix, event.service)) &&
            t[n + 3..] == event.message
  {
    var title := Title(titlePrefix, event);
    var t := TelegramText(titlePrefix, event);
    var n := |title|;
    assert t == "*" + title + "*\n" + event.message;
    assert t[1..n + 1] == title;
    assert t[n + 1..n + 3] == "*\n";
    assert t[n + 3..] == event.message;
    TitleRoundTrip(titlePrefix, event);
  }

  class TelegramNotifier {
    const base: Notifier
    var botToken: Option<ConfigValue>
    var chatId: Option<ConfigValue>

    /** Never fails. `bot_token` is looked up first: when it is missing,
        `chat_id` is left unset too, even if the configuration has it. */
    constructor (titlePrefix: string, config: Config)
      ensures fresh(base)
      ensures base.titlePrefix == titlePrefix && base.config == config
      ensures base.notificationTypes == EnabledTypes(config)
      ensures base.notificationServices == EnabledServices(config)
      ensures botToken == if "bot_token" in config then Some(config["bot_token"]) else None
      ensures chatId == if "bot_token" in config && "chat_id" in config then Some(config["chat_id"]) else None
    {
      base := new Notifier(titlePrefix, config);
      if "bot_token" in config {
        botToken := Some(config["bot_token"]);
        if "chat_id" in config {
          chatId := Some(config["chat_id"]);
        } else {
          chatId := None;
        }
      } else {
        botToken := None;
        chatId := None;
      }
    }

    /** Sends every USER event of `events`, in order, and nothing else; the
        i-th request issued is answered with `codes[i]`. The result is true
        when some request was not answered 200; a non-200 response does not
        stop the batch. Low-priority events are sent silently. */
    method SendEventsToUser(events: seq<Event>, codes: seq<int>) returns (errors: bool, sent: seq<TelegramRequest>)
      requires UserEvents(events) != [] ==> botToken.Some? && chatId.Some?
      requires |codes| == |UserEvents(events)|
      ensures |sent| == |UserEvents(events)|
      ensures forall k :: 0 <= k < |sent| ==>
                sent[k] == RequestFor(botToken.value, chatId.value, base.titlePrefix, UserEvents(events)[k])
      ensures errors <==> exists k :: 0 <= k < |codes| && codes[k] != StatusOk
    {
      ghost var token := if botToken.Some? then botToken.value else Null;
      ghost var chat := if chatId.Some? then chatId.value else Null;
      ghost var titlePrefix := base.titlePrefix;
      ghost var users: seq<Event> := [];
      errors := false;
      sent := [];
      var rest := events;
      while rest != []
        invariant UserEvents(events) == users + UserEvents(rest)
        invariant |sent| == |users|
        invariant forall k :: 0 <= k < |sent| ==> sent[k] == RequestFor(token, chat, titlePrefix, users[k])
        invariant errors == AnyFailure(codes[..|sent|])
      {
        var event := rest[0];
        UserEventsStep(events, users, rest);
        if event.eventType == USER {
          var code := codes[|sent|];
          AnyFailureStep(codes, |sent|);
          sent := sent + [RequestFor(botToken.value, chatId.value, base.titlePrefix, event)];
          if code != StatusOk {
            errors := true;
          }
        }
        users := users + (if event.eventType == USER then [event] else []);
        rest := rest[1..];
      }
      assert codes[..|sent|] == codes;
      AnyFailureIff(codes);
    }
  }
}
