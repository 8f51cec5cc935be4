/** The notifier package: the event vocabulary shared by every component,
    the notification policy lists that a notifier derives from its
    configuration, the channel-agnostic title of an event, the USER filter
    both delivery channels apply, and the exponential backoff schedule. */
module Notifier {

  datatype Option<+T> = None | Some(value: T)

  /** How urgently the user needs to be told about an event. */
  datatype EventPriority = LOW | NORMAL | HIGH {
    /** The enumeration value; a larger value is more urgent. */
    function Value(): int {
      match this
      case LOW => -1
      case NORMAL => 0
      case HIGH => 1
    }
  }

  /** The values rank the priorities: LOW below NORMAL below HIGH, and no two share a value. */
  lemma PriorityOrder(p: EventPriority, q: EventPriority)
    ensures LOW.Value() < NORMAL.Value() < HIGH.Value()
    ensures p.Value() == q.Value() <==> p == q
  {
  }

  /** USER events go to the user; KEEPALIVE events only prove liveness. */
  datatype EventType = KEEPALIVE | USER | DAILY_STATS | PLOTDECREASE | PLOTINCREASE

  /** The monitored service an event is about. */
  datatype EventService = HARVESTER | FARMER | FULL_NODE | DAILY | WALLET {
    /** The member's name, as the enumeration spells it. */
    function Name(): string {
      match this
      case HARVESTER => "HARVESTER"
      case FARMER => "FARMER"
      case FULL_NODE => "FULL_NODE"
      case DAILY => "DAILY"
      case WALLET => "WALLET"
    }
  }

  /** A notification-worthy fact; `iteration` counts earlier announcements of the same incident. */
  datatype Event = Event(
    eventType: EventType,
    priority: EventPriority,
    service: EventService,
    message: string,
    iteration: int := 0)

  // ---------------------------------------------------------------------
  // Configuration

  /** A value read from the configuration file. */
  datatype ConfigValue = Null | Bool(b: bool) | Int(i: int) | Str(s: string)

  type Config = map<string, ConfigValue>

  /** Whether `if value:` takes its branch. */
  predicate Truthy(v: ConfigValue) {
    match v
    case Null => false
    case Bool(b) => b
    case Int(i) => i != 0
    case Str(s) => s != ""
  }

  /** `config.get(key, False)` used as a condition: an absent key reads as false. */
  predicate Flag(config: Config, key: string) {
    key in config && Truthy(config[key])
  }

  // ---------------------------------------------------------------------
  // Notification policy

  const DefaultTypes: seq<EventType> := [USER]
  const DefaultServices: seq<EventService> := [HARVESTER, FARMER, FULL_NODE]

  /** The event types a notifier built from `config` lists as eligible. */
  function EnabledTypes(config: Config): seq<EventType> {
    DefaultTypes
      + (if Flag(config, "daily_stats") then [DAILY_STATS] else [])
      + (if Flag(config, "decreasing_plot_events") then [PLOTDECREASE] else [])
      + (if Flag(config, "increasing_plot_events") then [PLOTINCREASE] else [])
  }

  /** The event services a notifier built from `config` lists as eligible. */
  function EnabledServices(config: Config): seq<EventService> {
    DefaultServices
      + (if Flag(config, "daily_stats") then [DAILY] else [])
      + (if Flag(config, "wallet_events") then [WALLET] else [])
  }

  predicate NoDuplicates<T(==)>(s: seq<T>) {
    forall i, j :: 0 <= i < j < |s| ==> s[i] != s[j]
  }

  /** The part of a notifier that every channel shares. */
  class Notifier {
    const titlePrefix: string
    const config: Config
    var notificationTypes: seq<EventType>
    var notificationServices: seq<EventService>

    constructor (titlePrefix: string, config: Config)
      ensures this.titlePrefix == titlePrefix && this.config == config
      ensures notificationTypes == EnabledTypes(config)
      ensures notificationServices == EnabledServices(config)
    {
      this.titlePrefix := titlePrefix;
      this.config := config;
      notificationTypes := [USER];
      notificationServices := [HARVESTER, FARMER, FULL_NODE];
      var dailyStats := Flag(config, "daily_stats");
      var walletEvents := Flag(config, "wallet_events");
      var decreasingPlotEvents := Flag(config, "decreasing_plot_events");
      var increasingPlotEvents := Flag(config, "increasing_plot_events");
      if dailyStats {
        notificationTypes := notificationTypes + [DAILY_STATS];
        notificationServices := notificationServices + [DAILY];
      }
      if walletEvents {
        notificationServices := notificationServices + [WALLET];
      }
      if decreasingPlotEvents {
        notificationTypes := notificationTypes + [PLOTDECREASE];
      }
      if increasingPlotEvents {
        notificationTypes := notificationTypes + [PLOTINCREASE];
      }
    }
  }

  /** With no flag set, only USER events of the three node services are listed. */
  lemma PolicyDefaults(config: Config)
    requires !Flag(config, "daily_stats") && !Flag(config, "wallet_events")
    requires !Flag(config, "decreasing_plot_events") && !Flag(config, "increasing_plot_events")
    ensures EnabledTypes(config) == [USER]
    ensures EnabledServices(config) == [HARVESTER, FARMER, FULL_NODE]
  {
  }

  /** Each optional entry is present exactly when its own flag is set, the
      defaults are always present, and KEEPALIVE never is. */
  lemma PolicyMembership(config: Config)
    ensures USER in EnabledTypes(config) && KEEPALIVE !in EnabledTypes(config)
    ensures DAILY_STATS in EnabledTypes(config) <==> Flag(config, "daily_stats")
    ensures PLOTDECREASE in EnabledTypes(config) <==> Flag(config, "decreasing_plot_events")
    ensures PLOTINCREASE in EnabledTypes(config) <==> Flag(config, "increasing_plot_events")
    ensures HARVESTER in EnabledServices(config) && FARMER in EnabledServices(config)
    ensures FULL_NODE in EnabledServices(config)
    ensures DAILY in EnabledServices(config) <==> Flag(config, "daily_stats")
    ensures WALLET in EnabledServices(config) <==> Flag(config, "wallet_events")
  {
  }

  /** The defaults head both lists whatever the configuration, and neither list repeats an entry. */
  lemma PolicyShape(config: Config)
    ensures DefaultTypes <= EnabledTypes(config)
    ensures DefaultServices <= EnabledServices(config)
    ensures NoDuplicates(EnabledTypes(config))
    ensures NoDuplicates(EnabledServices(config))
  {
  }

  /** Setting more of the four policy flags never removes an entry from either
      list; other keys, the channels' own among them, play no part. */
  lemma PolicyMonotone(c1: Config, c2: Config)
    requires Flag(c1, "daily_stats") ==> Flag(c2, "daily_stats")
    requires Flag(c1, "wallet_events") ==> Flag(c2, "wallet_events")
    requires Flag(c1, "decreasing_plot_events") ==> Flag(c2, "decreasing_plot_events")
    requires Flag(c1, "increasing_plot_events") ==> Flag(c2, "increasing_plot_events")
    ensures forall t :: t in EnabledTypes(c1) ==> t in EnabledTypes(c2)
    ensures forall s :: s in EnabledServices(c1) ==> s in EnabledServices(c2)
  {
    PolicyMembership(c1);
    PolicyMembership(c2);
  }

  // ---------------------------------------------------------------------
  // Titles

  function Icon(p: EventPriority): string {
    match p
    case HIGH => "\U{1F6A8}"
    case NORMAL => "\U{26A0}\U{FE0F}"
    case LOW => "\U{2139}\U{FE0F}"
  }

  /** The title every channel shows for an event: priority icon, title prefix, service name. */
  function Title(titlePrefix: string, event: Event): string {
    Icon(event.priority) + (" " + (titlePrefix + " " + event.service.Name()))
  }

  datatype TitleParts = TitleParts(priority: EventPriority, titlePrefix: string, service: EventService)

  function PriorityOfIcon(c: char): Option<EventPriority> {
    if c == '\U{1F6A8}' then Some(HIGH)
    else if c == '\U{26A0}' then Some(NORMAL)
    else if c == '\U{2139}' then Some(LOW)
    else None
  }

  predicate EndsWith(s: string, suffix: string) {
    |suffix| <= |s| && s[|s| - |suffix|..] == suffix
  }

  const AllServices: seq<EventService> := [HARVESTER, FARMER, FULL_NODE, DAILY, WALLET]

  /** The first of `candidates` whose name ends `s`, preceded by a space. */
  function ServiceOfSuffix(s: string, candidates: seq<EventService> := AllServices): (r: Option<EventService>)
    ensures r.Some? ==> r.value in candidates && EndsWith(s, " " + r.value.Name())
  {
    if candidates == [] then None
    else if EndsWith(s, " " + candidates[0].Name()) then Some(candidates[0])
    else ServiceOfSuffix(s, candidates[1..])
  }

  /** Reads a title back into its priority, prefix and service. */
  function ParseTitle(t: string): Option<TitleParts> {
    if |t| == 0 then None
    else match PriorityOfIcon(t[0])
      case None => None
      case Some(p) =>
        var n := |Icon(p)|;
        if n < |t| && t[..n] == Icon(p) && t[n] == ' ' then ParseAfterIcon(p, t[n + 1..])
        else None
  }

  /** Reads what follows the icon and its space: the prefix, a space and a service name. */
  function ParseAfterIcon(p: EventPriority, rest: string): Option<TitleParts> {
    match ServiceOfSuffix(rest)
    case None => None
    case Some(s) => Some(TitleParts(p, rest[..|rest| - |s.Name()| - 1], s))
  }

  predicate NoSpace(s: string) {
    forall k :: 0 <= k < |s| ==> s[k] != ' '
  }

  /** When two space-led words both end `t`, the longer one has a space where the shorter one starts. */
  lemma CharBeforeSuffix(t: string, x: string, y: string)
    requires EndsWith(t, " " + x) && EndsWith(t, " " + y) && |x| < |y|
    ensures y[|y| - |x| - 1] == ' '
  {
    assert t[|t| - |x| - 1] == (" " + x)[0];
    assert t[|t| - |x| - 1] == (" " + y)[|y| - |x|];
  }

  /** A string ends in at most one space-led word. */
  lemma SuffixUnique(t: string, x: string, y: string)
    requires NoSpace(x) && NoSpace(y)
    requires EndsWith(t, " " + x) && EndsWith(t, " " + y)
    ensures x == y
  {
    if |x| < |y| {
      CharBeforeSuffix(t, x, y);
    } else if |y| < |x| {
      CharBeforeSuffix(t, y, x);
    } else {
      assert x == (" " + x)[1..] == t[|t| - |x|..] == (" " + y)[1..] == y;
    }
  }

  lemma NameNoSpace(s: EventService)
    ensures NoSpace(s.Name())
  {
    match s
    case HARVESTER =>
    case FARMER =>
    case FULL_NODE =>
    case DAILY =>
    case WALLET =>
  }

  lemma {:induction false} ServiceOfSuffixName(front: string, s: EventService, candidates: seq<EventService>)
    requires s in candidates
    ensures ServiceOfSuffix(front + " " + s.Name(), candidates) == Some(s)
  {
    var t := front + " " + s.Name();
    assert EndsWith(t, " " + s.Name()) by {
      assert t == front + (" " + s.Name());
    }
    var c := candidates[0];
    if EndsWith(t, " " + c.Name()) {
      NameNoSpace(s);
      NameNoSpace(c);
      SuffixUnique(t, c.Name(), s.Name());
      assert c == s;
    } else {
      ServiceOfSuffixName(front, s, candidates[1..]);
    }
  }

  /** An icon and a space are read as the icon's priority. */
  lemma ParseIconLed(p: EventPriority, rest: string)
    ensures ParseTitle(Icon(p) + (" " + rest)) == ParseAfterIcon(p, rest)
  {
    var icon := Icon(p);
    var t := icon + (" " + rest);
    var n := |icon|;
    assert t[0] == icon[0];
    assert PriorityOfIcon(icon[0]) == Some(p);
    assert t[..n] == icon;
    assert t[n] == ' ';
    assert t[n + 1..] == rest;
  }

  /** A prefix followed by a space and a service name is read back as that prefix and service. */
  lemma ParseAfterIconName(p: EventPriority, front: string, s: EventService)
    ensures ParseAfterIcon(p, front + " " + s.Name()) == Some(TitleParts(p, front, s))
  {
    var rest := front + " " + s.Name();
    assert s in AllServices;
    ServiceOfSuffixName(front, s, AllServices);
    assert rest[..|rest| - |s.Name()| - 1] == front;
  }

  /** A title keeps everything it was built from: reading it back gives the
      event's priority, the prefix and the event's service. */
  lemma TitleRoundTrip(titlePrefix: string, event: Event)
    ensures ParseTitle(Title(titlePrefix, event)) == Some(TitleParts(event.priority, titlePrefix, event.service))
  {
    ParseIconLed(event.priority, titlePrefix + " " + event.service.Name());
    ParseAfterIconName(event.priority, titlePrefix, event.service);
  }

  /** Two events get the same title under one prefix exactly when they share priority and service. */
  lemma TitleInjective(titlePrefix: string, e1: Event, e2: Event)
    ensures Title(titlePrefix, e1) == Title(titlePrefix, e2) <==>
              e1.priority == e2.priority && e1.service == e2.service
  {
    TitleRoundTrip(titlePrefix, e1);
    TitleRoundTrip(titlePrefix, e2);
  }

  // ---------------------------------------------------------------------
  // The USER filter of both delivery channels

  const StatusOk: int := 200

  /** The errors flag a channel folds over the response codes it received, in order. */
  function AnyFailure(codes: seq<int>): bool {
    codes != [] && (AnyFailure(codes[..|codes| - 1]) || codes[|codes| - 1] != StatusOk)
  }

  /** Receiving one more response code folds it into the flag. */
  lemma AnyFailureStep(codes: seq<int>, n: nat)
    requires n < |codes|
    ensures AnyFailure(codes[..n + 1]) == (AnyFailure(codes[..n]) || codes[n] != StatusOk)
  {
    assert codes[..n + 1][..n] == codes[..n];
  }

  /** The fold is true exactly when some response was not 200. */
  lemma {:induction false} AnyFailureIff(codes: seq<int>)
    ensures AnyFailure(codes) <==> exists k :: 0 <= k < |codes| && codes[k] != StatusOk
  {
    if codes != [] {
      var init := codes[..|codes| - 1];
      AnyFailureIff(init);
      if AnyFailure(init) {
        var k :| 0 <= k < |init| && init[k] != StatusOk;
        assert codes[k] != StatusOk;
      }
    }
  }

  /** The events of a batch that a channel sends, in batch order. */
  function UserEvents(events: seq<Event>): (r: seq<Event>)
    ensures |r| <= |events|
    ensures forall k :: 0 <= k < |r| ==> r[k].eventType == USER
  {
    if events == [] then []
    else (if events[0].eventType == USER then [events[0]] else []) + UserEvents(events[1..])
  }

  /** An event is sent exactly when it is in the batch and is a USER event. */
  lemma {:induction false} UserEventsMembers(events: seq<Event>)
    ensures forall e :: e in UserEvents(events) <==> e in events && e.eventType == USER
  {
    if events != [] {
      UserEventsMembers(events[1..]);
      assert events == [events[0]] + events[1..];
    }
  }

  /** Filtering a concatenation filters each part. */
  lemma {:induction false} UserEventsAppend(a: seq<Event>, b: seq<Event>)
    ensures UserEvents(a + b) == UserEvents(a) + UserEvents(b)
  {
    if a == [] {
      assert a + b == b;
    } else {
      assert (a + b)[1..] == a[1..] + b;
      UserEventsAppend(a[1..], b);
    }
  }

  /** Events of another type can be added anywhere in a batch without changing what is sent. */
  lemma {:induction false} UserEventsIgnoresOthers(a: seq<Event>, others: seq<Event>, b: seq<Event>)
    requires forall k :: 0 <= k < |others| ==> others[k].eventType != USER
    ensures UserEvents(a + others + b) == UserEvents(a + b)
  {
    UserEventsAppend(a + others, b);
    UserEventsAppend(a, others);
    UserEventsAppend(a, b);
    UserEventsNone(others);
    assert UserEvents(a + others) == UserEvents(a) + [];
    assert UserEvents(a) + [] == UserEvents(a);
  }

  lemma {:induction false} UserEventsNone(others: seq<Event>)
    requires forall k :: 0 <= k < |others| ==> others[k].eventType != USER
    ensures UserEvents(others) == []
  {
    if others != [] {
      UserEventsNone(others[1..]);
    }
  }

  /** Taking the next event of a batch off the remaining ones: a USER event moves to the sent part. */
  lemma UserEventsStep(events: seq<Event>, users: seq<Event>, rest: seq<Event>)
    requires rest != []
    requires UserEvents(events) == users + UserEvents(rest)
    ensures UserEvents(events) == (users + (if rest[0].eventType == USER then [rest[0]] else [])) + UserEvents(rest[1..])
  {
  }

  // ---------------------------------------------------------------------
  // Backoff

  const DefaultRate: real := 1.5

  /** `rate` raised to a natural power. */
  function PowNat(rate: real, n: nat): (r: real)
    ensures rate != 0.0 ==> r != 0.0
    ensures rate > 0.0 ==> r > 0.0
  {
    if n == 0 then 1.0 else rate * PowNat(rate, n - 1)
  }

  /** `rate` raised to an integer power; a negative power needs a non-zero rate. */
  function Pow(rate: real, n: int): (r: real)
    requires n >= 0 || rate != 0.0
    ensures rate != 0.0 ==> r != 0.0
    ensures rate > 0.0 ==> r > 0.0
  {
    if n >= 0 then PowNat(rate, n) else 1.0 / PowNat(rate, -n)
  }

  /** The time after which an incident that began at `incidentTime` and
      has already been announced `iteration` times may be announced again. */
  function ExponentialBackoff(incidentTime: real, interval: real, iteration: int := 0, rate: real := DefaultRate): real
    requires iteration >= 0 || rate != 0.0
  {
    incidentTime + interval * Pow(rate, iteration)
  }

  /** The first repeat is due one plain interval after the incident. */
  lemma BackoffFirst(incidentTime: real, interval: real, rate: real)
    ensures ExponentialBackoff(incidentTime, interval, 0, rate) == incidentTime + interval
  {
  }

  /** With a positive interval and rate, every threshold lies after the incident. */
  lemma BackoffAfterIncident(incidentTime: real, interval: real, iteration: int, rate: real)
    requires interval > 0.0 && rate > 0.0
    ensures ExponentialBackoff(incidentTime, interval, iteration, rate) > incidentTime
  {
    ScaleLess(interval, 0.0, Pow(rate, iteration));
  }

  /** One more power multiplies by the rate, for negative powers too. */
  lemma PowStep(rate: real, n: int)
    requires rate != 0.0
    ensures Pow(rate, n + 1) == rate * Pow(rate, n)
  {
    if n < 0 {
      var a := PowNat(rate, -n - 1);
      assert PowNat(rate, -n) == rate * a;
      assert rate * (1.0 / (rate * a)) == 1.0 / a;
    }
  }

  lemma PowIncreasing(rate: real, n: int)
    requires rate > 1.0
    ensures Pow(rate, n) < Pow(rate, n + 1)
  {
    PowStep(rate, n);
    var p := Pow(rate, n);
    assert (rate - 1.0) * p > 0.0;
  }

  lemma ScaleLess(c: real, a: real, b: real)
    requires c > 0.0 && a < b
    ensures c * a < c * b
  {
    assert c * b - c * a == c * (b - a);
  }

  lemma AffineLess(t: real, c: real, a: real, b: real)
    requires c > 0.0 && a < b
    ensures t + c * a < t + c * b
  {
    ScaleLess(c, a, b);
  }

  lemma BackoffStep(incidentTime: real, interval: real, n: int, rate: real)
    requires rate > 1.0 && interval > 0.0
    ensures ExponentialBackoff(incidentTime, interval, n, rate) < ExponentialBackoff(incidentTime, interval, n + 1, rate)
  {
    PowIncreasing(rate, n);
    AffineLess(incidentTime, interval, Pow(rate, n), Pow(rate, n + 1));
  }

  /** With a rate above one and a positive interval, every further
      announcement of an incident is due strictly later than the last. */
  lemma {:induction false} BackoffIncreasing(incidentTime: real, interval: real, i: int, j: int, rate: real)
    requires rate > 1.0 && interval > 0.0 && i < j
    ensures ExponentialBackoff(incidentTime, interval, i, rate) < ExponentialBackoff(incidentTime, interval, j, rate)
    decreases j - i
  {
    BackoffStep(incidentTime, interval, j - 1, rate);
    if i < j - 1 {
      BackoffIncreasing(incidentTime, interval, i, j - 1, rate);
    }
  }
}
