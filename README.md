# chiafarm-watchdog notifier core in Dafny

This project models the notifier package of chiafarm-watchdog, a monitor for
Chia farming nodes. It covers the following parts:

- the event vocabulary: priority, type and service enumerations, and the `Event` record;
- the notification policy lists a notifier derives from its configuration;
- the title every channel shows for an event;
- the exponential backoff schedule used to re-announce an incident;
- two delivery channels, Slack and Telegram.

Both channels send one HTTPS POST for each USER event of a batch, in batch
order. Every other event is skipped. The send returns true when some request
was not answered with status 200. A non-200 response does not stop the batch.

The modules are:

- `Notifier` (`notifier.dfy`): the vocabulary, the configuration values with
  Python truthiness, the `Notifier` class with its policy lists, `Title` and
  its reader `ParseTitle`, the USER filter `UserEvents`, the fold
  `AnyFailure` over response codes, and `ExponentialBackoff`.
- `Slack` (`slack_notifier.dfy`): the Slack message text and the
  `SlackNotifier` class.
- `Telegram` (`telegram_notifier.dfy`): how a configuration value prints in
  the request path (with a decimal reader for integer tokens), the Bot API
  `sendMessage` request and the `TelegramNotifier` class.

The network is an oracle. `SendEventsToUser` takes the sequence of status
codes its requests receive, one per request in order. It returns the errors
flag together with the requests it built. The configuration is a map from
keys to `ConfigValue`. A key the source reads with `config[...]` becomes an
optional field of the notifier, because a missing key only logs at
construction time. Sending a USER event without that field makes the source
raise, so the send method requires the field whenever the batch holds a USER
event.

The Python base class is abstract. Each channel here holds a `Notifier` as
`base`, and `Title` is a function of the title prefix and the event.

## Model

| member | source | states |
|---|---|---|
| Notifier.PriorityOrder | src/notifier/__init__.py:13-20 | the priority values -1, 0, 1 rank LOW below NORMAL below HIGH, and no two priorities share a value |
| Notifier.Notifier.constructor | src/notifier/__init__.py:65-84 | keeps the prefix and configuration; the type list is USER followed by DAILY_STATS, PLOTDECREASE and PLOTINCREASE, each present only when its flag is truthy; the service list is HARVESTER, FARMER, FULL_NODE followed by DAILY and WALLET under their flags |
| Notifier.Truthy | src/notifier/__init__.py:76-84 | no contract of its own: Python truthiness of a configuration value as the `if` tests use it; its consequences are in PolicyMembership |
| Notifier.Flag | src/notifier/__init__.py:72-75 | no contract of its own: `config.get(key, False)` used as a condition, an absent key reading as false; its consequences are in PolicyDefaults and PolicyMembership |
| Notifier.EnabledTypes | src/notifier/__init__.py:69-84 | no contract of its own: the closed form of the type list; its properties are in Notifier.Notifier.constructor, PolicyMembership, PolicyShape and PolicyMonotone |
| Notifier.EnabledServices | src/notifier/__init__.py:70-80 | no contract of its own: the closed form of the service list; its properties are in Notifier.Notifier.constructor, PolicyMembership, PolicyShape and PolicyMonotone |
| Notifier.PolicyDefaults | src/notifier/__init__.py:69-75 | with no flag set (an absent key reads as false), only USER events of the three node services are listed |
| Notifier.PolicyMembership | src/notifier/__init__.py:69-84 | USER and the three node services are always listed, KEEPALIVE never; each optional entry is listed if and only if its own flag is truthy (`daily_stats` adds both DAILY_STATS and DAILY) |
| Notifier.PolicyShape | src/notifier/__init__.py:69-84 | the defaults head both lists whatever the configuration; neither list repeats an entry |
| Notifier.PolicyMonotone | src/notifier/__init__.py:72-84 | setting more of the four policy flags never removes an entry from either list, whatever the other keys hold |
| Notifier.Icon | src/notifier/__init__.py:87-93 | no contract of its own: the icon of each priority; its properties are in TitleRoundTrip and Slack.MarkAgreesWithIcon |
| Notifier.Title | src/notifier/__init__.py:86-95 | no contract of its own: icon, space, prefix, space, service name; its properties are in TitleRoundTrip and TitleInjective |
| Notifier.ServiceOfSuffix | src/notifier/__init__.py:95 | a service found at the end of a title is one of the candidates, and the title ends in a space followed by its name |
| Notifier.TitleRoundTrip | src/notifier/__init__.py:86-95 | a title (icon for the priority, space, prefix, space, service name) reads back into the event's priority, the prefix and the event's service |
| Notifier.TitleInjective | src/notifier/__init__.py:86-95 | under one prefix, two events get the same title exactly when they have the same priority and service |
| Notifier.AnyFailure | src/notifier/slack_notifier.py:22-49 | no contract of its own: the errors flag folded over the response codes; its meaning is in AnyFailureIff |
| Notifier.AnyFailureIff | src/notifier/slack_notifier.py:22-49 | the errors flag folded over the response codes is true exactly when some code is not 200 |
| Notifier.UserEvents | src/notifier/slack_notifier.py:23-24 | the events a channel sends are no more than the batch and are all USER events |
| Notifier.UserEventsMembers | src/notifier/slack_notifier.py:23-24 | an event is sent exactly when it is in the batch and has type USER |
| Notifier.UserEventsAppend | src/notifier/telegram_notifier.py:23-24 | the events sent for two batches in a row are the events sent for each batch, concatenated |
| Notifier.UserEventsIgnoresOthers | src/notifier/telegram_notifier.py:23-24 | inserting non-USER events anywhere in a batch does not change what is sent |
| Notifier.PowNat | src/notifier/__init__.py:111 | a natural power of a non-zero rate is non-zero, and of a positive rate positive |
| Notifier.Pow | src/notifier/__init__.py:111 | the same for any integer power; a negative power of a zero rate is excluded, as Python raises there |
| Notifier.PowStep | src/notifier/__init__.py:111 | one more power multiplies by the rate, negative powers included |
| Notifier.PowIncreasing | src/notifier/__init__.py:111 | with a rate above one, each power is strictly larger than the one before |
| Notifier.ExponentialBackoff | src/notifier/__init__.py:102-112 | no contract of its own: the incident time plus the interval times the rate to the power of the iteration; its properties are in BackoffFirst, BackoffAfterIncident and BackoffIncreasing |
| Notifier.BackoffFirst | src/notifier/__init__.py:102-112 | the threshold for iteration 0 is the incident time plus one plain interval |
| Notifier.BackoffAfterIncident | src/notifier/__init__.py:102-112 | with a positive interval and rate, every threshold lies strictly after the incident |
| Notifier.BackoffIncreasing | src/notifier/__init__.py:102-112 | with a rate above one and a positive interval, a later iteration always has a strictly later threshold |
| Slack.MarkAgreesWithIcon | src/notifier/slack_notifier.py:25-30 | the Slack priority marks for HIGH and NORMAL are the shared title icons; LOW, and only LOW, has no mark |
| Slack.SlackTextPriority | src/notifier/slack_notifier.py:25-34 | the first character of a Slack text tells all three priorities apart |
| Slack.SlackTextMessage | src/notifier/slack_notifier.py:32-36 | the text ends with the event message verbatim, after a part that does not depend on the message |
| Slack.Mark | src/notifier/slack_notifier.py:25-30 | no contract of its own: the priority mark of a Slack text; its properties are in MarkAgreesWithIcon |
| Slack.SlackText | src/notifier/slack_notifier.py:32-36 | no contract of its own: mark, then prefix and service name in bold, then the message; its properties are in SlackTextPriority and SlackTextMessage |
| Slack.SlackNotifier.constructor | src/notifier/slack_notifier.py:13-19 | builds the shared notifier state; the webhook URL is set exactly when `webhook_url` is in the configuration, and a missing key is not an error |
| Slack.SlackNotifier.SendEventsToUser | src/notifier/slack_notifier.py:21-52 | one request per USER event, in batch order, each recording the configured webhook URL (see Left out), with the mark, bold prefix and service name, and message; the result is true exactly when some response code is not 200 |
| Telegram.Digits | src/notifier/telegram_notifier.py:36 | the digits of a natural number are at least one decimal digit, with no leading zero; the spelling is "0" exactly for zero |
| Telegram.DecimalString | src/notifier/telegram_notifier.py:36 | an integer token prints with a minus sign exactly when negative, followed by decimal digits with no leading zero |
| Telegram.DigitsRoundTrip | src/notifier/telegram_notifier.py:36 | reading back the digits of a natural number gives the number |
| Telegram.DecimalRoundTrip | src/notifier/telegram_notifier.py:36 | reading back the spelling of any integer gives the integer, so distinct integer tokens give distinct paths |
| Telegram.Format | src/notifier/telegram_notifier.py:36 | no contract of its own: how a configuration value prints in an f-string (`None`, `True`, `False`, decimal, or the string itself); its integer case is in DecimalString and DecimalRoundTrip |
| Telegram.SendMessagePath | src/notifier/telegram_notifier.py:36 | no contract of its own: `/bot`, the formatted token, `/sendMessage`; its properties are in RequestForContents |
| Telegram.TelegramText | src/notifier/telegram_notifier.py:28 | no contract of its own: the title in bold, a newline, the message; its properties are in RequestForContents |
| Telegram.RequestFor | src/notifier/telegram_notifier.py:25-39 | no contract of its own: the request for one event; its properties are in RequestForContents |
| Telegram.RequestForContents | src/notifier/telegram_notifier.py:25-39 | a request goes to api.telegram.org at `/bot<token>/sendMessage` with the configured chat and Markdown parse mode; it is silent exactly for LOW events; its bold part is the shared title, which reads back into priority, prefix and service; the message follows verbatim |
| Telegram.TelegramNotifier.constructor | src/notifier/telegram_notifier.py:12-19 | builds the shared notifier state; `bot_token` is read first, and when it is missing `chat_id` stays unset even if present |
| Telegram.TelegramNotifier.SendEventsToUser | src/notifier/telegram_notifier.py:21-46 | one request per USER event, in batch order, each the Bot API request for that event; the result is true exactly when some response code is not 200 |

## Left out

- HTTP transport: connecting, posting, the `Content-type` header and closing the connection are not modelled. The response codes are a parameter, one per request, so a request always gets an answer.
- Slack.SlackNotifier.SendEventsToUser: the webhook URL is recorded whole. The source splits it with `urllib.parse.urlparse` and posts only the path to the host over HTTPS. A query string, `;` parameters or a fragment in the URL are therefore dropped, and an `http://` URL is still sent over HTTPS. The model does not capture any of this.
- Slack.SlackNotifier.SendEventsToUser: a configured `webhook_url` that is not a string is excluded by the precondition. The source then raises, in `urlparse` or in `HTTPSConnection`.
- Slack.SlackNotifier.SendEventsToUser: a request that raises (DNS failure, refused connection, TLS error, the server disconnecting) leaves the method at once, so the later USER events of the batch are not sent and no flag is returned. This is not modelled: every request gets a response code.
- Slack.SlackNotifier.SendEventsToUser: a string webhook URL that the HTTP client rejects makes the source raise at the first USER event of every batch, before any network contact. Examples are a non-numeric port (`HTTPSConnection` raises `InvalidURL`), an unbalanced `[` (`urlparse` raises `ValueError`), and a space, control character or non-ASCII character in the path (`request` raises `InvalidURL` or `UnicodeEncodeError`). The model accepts any string URL and builds a request for it.
- Telegram.TelegramNotifier.SendEventsToUser: a bot token whose formatted value puts a space, control character or non-ASCII character into the path makes `request` raise at the first USER event of every batch, before any network contact. The model builds the request with that path.
- Telegram.TelegramNotifier.SendEventsToUser: a request that raises (DNS failure, refused connection, TLS error, the server disconnecting) leaves the method at once, so the later USER events of the batch are not sent and no flag is returned. This is not modelled: every request gets a response code.
- The integer values of `EventType` and `EventService`: nothing in the core reads them, so the model keeps only the members. The priority values are kept.
- JSON serialisation of the request bodies: the bodies are records of their fields, not bytes.
- Logging: the info, warning and error messages are not modelled.
- `_conn_timeout_seconds`: the source sets it but neither channel passes it on.
- The notification policy lists are computed and proved about, but neither channel consults them when sending. This matches the source, where only the USER type filter applies.
- `datetime` conversion in `exponential_backoff`: times are real numbers of seconds. Converting from and to `datetime`, and float rounding, are not modelled.
- Python's `pow` on a zero rate with a negative iteration raises `ZeroDivisionError`. Here that case is a precondition of `ExponentialBackoff`.
- The harvester activity handler that produces events and calls `exponential_backoff` is not part of this model.
- The abstract `send_events_to_user` of the base class has no model of its own; the two channels implement it.
- The configuration file format: a configuration is already a map of values, with `null`, booleans, integers and strings only.

A missing configuration key does not fail construction. The constructors of
both channels only log it, and the model follows them: construction always
succeeds, and the missing value is a precondition of sending.
