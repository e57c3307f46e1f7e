/** One log line for a service (`generate_log_line`, main.py:127-143): a level, a message from
    the template catalog with its placeholder filled, and the layout
    `<timestamp> [<LEVEL>] [<service>] <message>`. */
module Logs {
  import opened Wrappers
  import opened Text
  import Catalog

  datatype Level = Info | Debug | Warn | Error

  /** The level as written in the line: one of the catalog's `LOG_LEVELS`. */
  function LevelName(level: Level): (name: string)
    ensures name in Catalog.LOG_LEVELS
    ensures ']' !in name && '\n' !in name
  {
    match level
    case Info => "INFO"
    case Debug => "DEBUG"
    case Warn => "WARN"
    case Error => "ERROR"
  }

  function ParseLevel(name: string): Option<Level> {
    if name == "INFO" then Some(Info)
    else if name == "DEBUG" then Some(Debug)
    else if name == "WARN" then Some(Warn)
    else if name == "ERROR" then Some(Error)
    else None
  }

  // ---------------------------------------------------------------------------------------------
  // Messages

  type ReplacementIndex = i: nat | i < 4

  /** What one line's message consumes from the random source: the template, and the four
      candidate values together with the choice among them (main.py:130-140). */
  datatype MessageDraw = MessageDraw(
    template: Catalog.TemplateIndex,
    userId: nat,
    statusCode: nat,
    resourceId: nat,
    memoryMb: nat,
    pick: ReplacementIndex)

  /** The ranges of the four `randint` calls at main.py:135-138. */
  predicate MessageDrawInRange(d: MessageDraw) {
    1000 <= d.userId <= 9999 && 200 <= d.statusCode <= 500 &&
    1 <= d.resourceId <= 100 && 64 <= d.memoryMb <= 512
  }

  /** The four candidate values, in the order of the list at main.py:134-139. */
  function Replacements(d: MessageDraw): (values: seq<string>)
    ensures |values| == 4
  {
    [ "user_" + NatToString(d.userId),
      NatToString(d.statusCode),
      "resource_" + NatToString(d.resourceId),
      NatToString(d.memoryMb) ]
  }

  /** Position of the first `{}` in `t`, or `|t|` when there is none. */
  function PlaceholderAt(t: string): (i: nat)
    ensures i <= |t|
    ensures i < |t| ==> i + 1 < |t| && t[i] == '{' && t[i + 1] == '}'
    ensures forall k :: 0 <= k < i && k + 1 < |t| ==> !(t[k] == '{' && t[k + 1] == '}')
  {
    if |t| < 2 then |t|
    else if t[0] == '{' && t[1] == '}' then 0
    else 1 + PlaceholderAt(t[1..])
  }

  /** `"{}" in t` */
  predicate HasPlaceholder(t: string) {
    PlaceholderAt(t) < |t|
  }

  /** `t.format(v)` for a template with one positional field: the `{}` is replaced by `v`. */
  function Format(t: string, v: string): string
    decreases |t|
  {
    if |t| < 2 then t
    else if t[0] == '{' && t[1] == '}' then v + t[2..]
    else [t[0]] + Format(t[1..], v)
  }

  /** Formatting replaces exactly the first placeholder and leaves the rest of the text alone. */
  lemma {:induction false} FormatReplacesFirstPlaceholder(t: string, v: string)
    ensures var i := PlaceholderAt(t);
            Format(t, v) == if i < |t| then t[..i] + v + t[i + 2..] else t
    decreases |t|
  {
    if |t| >= 2 && !(t[0] == '{' && t[1] == '}') {
      FormatReplacesFirstPlaceholder(t[1..], v);
      var i := PlaceholderAt(t[1..]);
      if i < |t[1..]| {
        var before, after := t[1..][..i], t[1..][i + 2..];
        assert t[..i + 1] == [t[0]] + before;
        assert t[i + 3..] == after;
        Regroup([t[0]], before, v, after);
      } else {
        assert [t[0]] + t[1..] == t;
      }
    }
  }

  lemma Regroup(x: string, before: string, v: string, after: string)
    ensures x + (before + v + after) == (x + before) + v + after
  {
  }

  /** The message of one line: the template, with its placeholder (if any) filled by the picked
      candidate value (main.py:130-140). */
  function RenderMessage(d: MessageDraw): (message: string)
    ensures var t, i := Catalog.LOG_MESSAGES[d.template], PlaceholderAt(Catalog.LOG_MESSAGES[d.template]);
            message == if i < |t| then t[..i] + Replacements(d)[d.pick] + t[i + 2..] else t
  {
    var template := Catalog.LOG_MESSAGES[d.template];
    FormatReplacesFirstPlaceholder(template, Replacements(d)[d.pick]);
    if HasPlaceholder(template) then Format(template, Replacements(d)[d.pick]) else template
  }

  // ---------------------------------------------------------------------------------------------
  // The line

  /** What one line consumes from the random source: its level and its message. */
  datatype LogDraw = LogDraw(level: Level, message: MessageDraw)

  /** `f"{timestamp_str} [{level}] [{service}] {message}"` (main.py:143) */
  function LogLine(timestamp: string, level: Level, service: string, message: string): string {
    timestamp + " [" + LevelName(level) + "] [" + service + "] " + message
  }

  /** The literal parts of the line between the timestamp and the message. */
  const LOG_LAYOUT: seq<string> := [" [", "] [", "] "]

  datatype LogFields = LogFields(timestamp: string, level: Level, service: string, message: string)

  /** Reads a line back, given the width of its timestamp text. */
  function ParseLogLine(line: string, stampWidth: nat): Option<LogFields> {
    if |line| < stampWidth then None
    else
      match Unrender(line[stampWidth..], LOG_LAYOUT)
      case None => None
      case Some(parsed) =>
        if |parsed.0| != 2 then None
        else
          match ParseLevel(parsed.0[0])
          case None => None
          case Some(level) => Some(LogFields(line[..stampWidth], level, parsed.0[1], parsed.1))
  }

  lemma LogLineLayout(timestamp: string, level: Level, service: string, message: string)
    ensures LogLine(timestamp, level, service, message)
            == timestamp + Render(LOG_LAYOUT, [LevelName(level), service]) + message
  {
    var fields := [LevelName(level), service];
    assert Render(LOG_LAYOUT[2..], fields[2..]) == "] ";
    assert Render(LOG_LAYOUT[1..], fields[1..]) == "] [" + service + "] ";
  }

  /** A line splits back into its timestamp, level, service and message whenever the service
      name cannot be mistaken for the end of the bracket. */
  lemma ParseLogLineRoundTrip(timestamp: string, level: Level, service: string, message: string)
    requires ']' !in service
    ensures ParseLogLine(LogLine(timestamp, level, service, message), |timestamp|)
            == Some(LogFields(timestamp, level, service, message))
  {
    var line := LogLine(timestamp, level, service, message);
    var fields := [LevelName(level), service];
    LogLineLayout(timestamp, level, service, message);
    assert line[|timestamp|..] == Render(LOG_LAYOUT, fields) + message;
    assert line[..|timestamp|] == timestamp;
    assert Separable(LOG_LAYOUT, fields) by {
      assert LOG_LAYOUT[1..] == ["] [", "] "];
    }
    UnrenderRender(LOG_LAYOUT, fields, message);
    assert ParseLevel(LevelName(level)) == Some(level);
  }

  /** A line holds no line break when none of its parts does, so joined lines split back apart. */
  lemma LogLineIsOneLine(timestamp: string, level: Level, service: string, message: string)
    requires '\n' !in timestamp && '\n' !in service && '\n' !in message
    ensures '\n' !in LogLine(timestamp, level, service, message)
  {
  }

  /** `generate_log_line(service, timestamp)`, with the clock's text for the timestamp
      (`strftime` to milliseconds) supplied by `stamp`. */
  function GenerateLogLine(service: string, timestamp: int, d: LogDraw, stamp: int -> string): (line: string)
    ensures ']' !in service ==>
              ParseLogLine(line, |stamp(timestamp)|)
              == Some(LogFields(stamp(timestamp), d.level, service, RenderMessage(d.message)))
  {
    var message := RenderMessage(d.message);
    var line := LogLine(stamp(timestamp), d.level, service, message);
    assert ']' !in service ==>
             ParseLogLine(line, |stamp(timestamp)|) == Some(LogFields(stamp(timestamp), d.level, service, message)) by {
      if ']' !in service {
        ParseLogLineRoundTrip(stamp(timestamp), d.level, service, message);
      }
    }
    line
  }
}
