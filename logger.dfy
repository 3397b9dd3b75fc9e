/** The logging helpers of utils/logger.js: the level `logRequest` picks from a status code,
    the records the helpers build (object literals and spreads), and the line `customFormat`
    prints, with the colouring the console transport applies before it. */
module Logger {
  import opened Basics
  import opened Strings

  /** The npm levels of winston that the helpers use, most severe first (`verbose`, rank 4,
      and `silly`, rank 6, are never used). */
  datatype Level = Error | Warn | Info | Http | Debug

  function Rank(l: Level): nat {
    match l
    case Error => 0
    case Warn => 1
    case Info => 2
    case Http => 3
    case Debug => 5
  }

  function LevelName(l: Level): string {
    match l
    case Error => "error"
    case Warn => "warn"
    case Info => "info"
    case Http => "http"
    case Debug => "debug"
  }

  /** A logger with threshold `t` writes a message of level `l` when `l` is at least as severe. */
  predicate Emitted(l: Level, t: Level) {
    Rank(l) <= Rank(t)
  }

  /** The level of `logRequest`: error from 500, warn from 400, http below. */
  function LevelFor(statusCode: int): (l: Level)
    ensures l == Error <==> statusCode >= 500
    ensures l == Warn <==> 400 <= statusCode < 500
    ensures l == Http <==> statusCode < 400
  {
    if statusCode >= 500 then Error else if statusCode >= 400 then Warn else Http
  }

  /** A higher status code is never logged at a less severe level. */
  lemma LevelForMonotone(a: int, b: int)
    requires a <= b
    ensures Rank(LevelFor(b)) <= Rank(LevelFor(a))
  {
  }

  /** At the default threshold `info`, failed requests are written and successful ones,
      logged at `http`, are not. */
  lemma DefaultThresholdDropsSuccess(statusCode: int)
    ensures Emitted(LevelFor(statusCode), Info) <==> statusCode >= 400
  {
  }

  // Records: JavaScript objects as key/value lists in insertion order

  /** A property value: a string, a number, or `undefined` (which `JSON.stringify` drops). */
  datatype Value = Str(s: string) | Num(n: int) | Undefined

  type Record = seq<(string, Value)>

  /** The keys of a record. */
  function Keys(r: Record): (ks: seq<string>)
    ensures |ks| == |r| && forall i :: 0 <= i < |r| ==> ks[i] == r[i].0
  {
    if r == [] then [] else [r[0].0] + Keys(r[1..])
  }

  /** An object has each key at most once. */
  predicate UniqueKeys(r: Record) {
    forall i, j :: 0 <= i < j < |r| ==> r[i].0 != r[j].0
  }

  /** `r[k]`: the value under `k`, if the key is present. */
  function Get(r: Record, k: string): (v: Option<Value>)
    ensures v.None? <==> k !in Keys(r)
  {
    if r == [] then None else if r[0].0 == k then Some(r[0].1) else Get(r[1..], k)
  }

  /** `r[k] = v`: a present key keeps its position and takes the new value; a new key goes last. */
  function Put(r: Record, k: string, v: Value): (r': Record)
    ensures |r'| == |r| + (if k in Keys(r) then 0 else 1)
    ensures forall i :: 0 <= i < |r| ==> r'[i].0 == r[i].0
    ensures k !in Keys(r) ==> r'[|r|] == (k, v)
  {
    if r == [] then [(k, v)]
    else if r[0].0 == k then [(k, v)] + r[1..]
    else
      assert Keys(r) == [r[0].0] + Keys(r[1..]);
      [r[0]] + Put(r[1..], k, v)
  }

  /** Assigning a property keeps an object's keys unique. */
  lemma PutUnique(r: Record, k: string, v: Value)
    ensures UniqueKeys(r) ==> UniqueKeys(Put(r, k, v))
  {
    var r' := Put(r, k, v);
    if UniqueKeys(r) {
      forall i, j | 0 <= i < j < |r'|
        ensures r'[i].0 != r'[j].0
      {
        if j == |r| {
          assert Keys(r)[i] == r[i].0;
        }
      }
    }
  }

  /** In an object, the value found under the key at position `i` is the one stored there. */
  lemma {:induction false} GetAt(r: Record, i: nat)
    requires UniqueKeys(r) && i < |r|
    ensures Get(r, r[i].0) == Some(r[i].1)
  {
    if i > 0 {
      GetAt(r[1..], i - 1);
    }
  }

  lemma {:induction false} GetPut(r: Record, k: string, v: Value, q: string)
    ensures Get(Put(r, k, v), q) == if q == k then Some(v) else Get(r, q)
    decreases |r|
  {
    if r != [] && r[0].0 != k {
      GetPut(r[1..], k, v, q);
    }
  }

  /** `{ ...a, ...b }`: the properties of `b` assigned over those of `a`, in order. */
  function Spread(a: Record, b: Record): (r: Record)
    ensures |r| >= |a|
    ensures forall i :: 0 <= i < |a| ==> r[i].0 == a[i].0
    ensures UniqueKeys(a) ==> UniqueKeys(r)
    decreases |b|
  {
    if b == [] then a
    else
      PutUnique(a, b[0].0, b[0].1);
      Spread(Put(a, b[0].0, b[0].1), b[1..])
  }

  /** A spread property wins over the base one; a key the spread lacks keeps the base value. */
  lemma {:induction false} GetSpread(a: Record, b: Record, k: string)
    requires UniqueKeys(b)
    ensures Get(Spread(a, b), k) == if k in Keys(b) then Get(b, k) else Get(a, k)
    decreases |b|
  {
    if b != [] {
      GetSpread(Put(a, b[0].0, b[0].1), b[1..], k);
      GetPut(a, b[0].0, b[0].1, k);
      assert Keys(b) == [b[0].0] + Keys(b[1..]);
      assert b[0].0 !in Keys(b[1..]);
    }
  }

  /** `{ [key]: value, ...details }`, the record of `logAuth` (key `action`) and `logDB` (key
      `operation`): every detail is carried with its value, and the tag unless a detail of
      the same name replaces it. */
  function Tagged(key: string, value: string, details: Record): (r: Record)
    ensures |r| >= 1 && r[0].0 == key
    ensures UniqueKeys(details) ==> forall k :: k in Keys(details) ==> Get(r, k) == Get(details, k)
    ensures UniqueKeys(details) ==> Get(r, key) == if key in Keys(details) then Get(details, key) else Some(Str(value))
  {
    var r := Spread([(key, Str(value))], details);
    forall k | UniqueKeys(details)
      ensures Get(r, k) == if k in Keys(details) then Get(details, k) else Get([(key, Str(value))], k)
    {
      GetSpread([(key, Str(value))], details, k);
    }
    r
  }

  /** The record of `logError(error, context = {})`: the error's message and stack, then the
      context's fields, a context field of the same name taking precedence. */
  function ErrorRecord(message: string, stack: Value, context: Option<Record>): (r: Record)
    ensures |r| >= 2 && r[0].0 == "message" && r[1].0 == "stack"
    ensures context.Some? && UniqueKeys(context.value) ==>
      && (forall k :: k in Keys(context.value) ==> Get(r, k) == Get(context.value, k))
      && ("message" !in Keys(context.value) ==> Get(r, "message") == Some(Str(message)))
      && ("stack" !in Keys(context.value) ==> Get(r, "stack") == Some(stack))
    ensures context.None? ==> r == [("message", Str(message)), ("stack", stack)]
  {
    var base := [("message", Str(message)), ("stack", stack)];
    var ctx := if context.Some? then context.value else [];
    var r := Spread(base, ctx);
    assert Get(base, "stack") == Some(stack) by {
      GetAt(base, 1);
    }
    forall k | UniqueKeys(ctx)
      ensures Get(r, k) == if k in Keys(ctx) then Get(ctx, k) else Get(base, k)
    {
      GetSpread(base, ctx, k);
    }
    r
  }

  /** The record of `logRequest`. `url` is `originalUrl` when that is a non-empty string and
      `url` otherwise; the duration is the number of milliseconds followed by `ms`; `ip`
      falls back to the socket's address. */
  function RequestRecord(verb: string, originalUrl: Option<string>, url: string, statusCode: int, duration: nat,
                         ip: Option<string>, remoteAddress: Option<string>, userAgent: Option<string>): (r: Record)
    ensures Keys(r) == ["method", "url", "statusCode", "duration", "ip", "userAgent"]
    ensures Get(r, "url") == Some(Str(if originalUrl.Some? && originalUrl.value != "" then originalUrl.value else url))
    ensures Get(r, "statusCode") == Some(Num(statusCode))
  {
    var ipValue := if ip.Some? && ip.value != "" then Str(ip.value)
                   else if remoteAddress.Some? then Str(remoteAddress.value) else Undefined;
    var r := [ ("method", Str(verb)),
               ("url", Str(if originalUrl.Some? && originalUrl.value != "" then originalUrl.value else url)),
               ("statusCode", Num(statusCode)),
               ("duration", Str(Decimal(duration) + "ms")),
               ("ip", ipValue),
               ("userAgent", if userAgent.Some? then Str(userAgent.value) else Undefined) ];
    GetAt(r, 1);
    GetAt(r, 2);
    r
  }

  /** The logged duration reads back as the number of milliseconds. */
  lemma DurationReadsBack(verb: string, originalUrl: Option<string>, url: string, statusCode: int, duration: nat,
                          ip: Option<string>, remoteAddress: Option<string>, userAgent: Option<string>)
    ensures var d := Get(RequestRecord(verb, originalUrl, url, statusCode, duration, ip, remoteAddress, userAgent), "duration");
            && d.Some? && d.value.Str? && |d.value.s| >= 2
            && d.value.s[|d.value.s| - 2..] == "ms"
            && AllDigits(d.value.s[..|d.value.s| - 2])
            && ParseDecimal(d.value.s[..|d.value.s| - 2]) == duration
  {
    var r := RequestRecord(verb, originalUrl, url, statusCode, duration, ip, remoteAddress, userAgent);
    assert r[3] == ("duration", Str(Decimal(duration) + "ms"));
    GetAt(r, 3);
    var s := Decimal(duration) + "ms";
    assert s[..|s| - 2] == Decimal(duration);
    assert s[|s| - 2..] == "ms";
    ParseDecimalInverse(duration);
  }

  /** `logRequest(req, statusCode, duration)`: the level, the message and the record logged. */
  function LogRequest(verb: string, originalUrl: Option<string>, url: string, statusCode: int, duration: nat,
                      ip: Option<string>, remoteAddress: Option<string>, userAgent: Option<string>): (r: (Level, string, Record))
    ensures r.0 == LevelFor(statusCode) && r.1 == "HTTP Request"
    ensures Emitted(r.0, Info) <==> statusCode >= 400
    ensures Get(r.2, "statusCode") == Some(Num(statusCode))
  {
    (LevelFor(statusCode), "HTTP Request", RequestRecord(verb, originalUrl, url, statusCode, duration, ip, remoteAddress, userAgent))
  }

  // The console line

  /** The colours of winston's default scheme, as SGR foreground codes. */
  function ColorCode(l: Level): string {
    match l
    case Error => "31"  // red
    case Warn => "33"   // yellow
    case Info => "32"   // green
    case Http => "32"   // green
    case Debug => "34"  // blue
  }

  /** The escape sequence that switches the colour of `l` on: ESC, `[`, the code, `m`. */
  function Open(l: Level): (s: string)
    ensures |s| >= 4 && s[|s| - 1] == 'm'
  {
    "\U{001B}[" + ColorCode(l) + "m"
  }

  /** The escape sequence that restores the default foreground colour. */
  const Close: string := "\U{001B}[39m"

  /** `colorize`: the text between the two sequences when colours are enabled. */
  function Paint(enabled: bool, l: Level, text: string): string {
    if enabled then Open(l) + text + Close else text
  }

  /** The level tag as written: `colorize({ all: true })` runs first and `customFormat` then
      upper-cases the coloured level, escape sequences included. */
  function LevelTagAsWritten(enabled: bool, l: Level): string {
    ToUpper(Paint(enabled, l, LevelName(l)))
  }

  /** The level tag as intended: the upper-case level name, coloured. */
  function LevelTag(enabled: bool, l: Level): (t: string)
    ensures !enabled ==> t == ToUpper(LevelName(l))
    ensures enabled ==> t == Open(l) + ToUpper(LevelName(l)) + Close
  {
    Paint(enabled, l, ToUpper(LevelName(l)))
  }

  /** With colours enabled, the upper-casing turns the final `m` of the opening sequence into
      `M`, so the terminal no longer reads it as a colour change; the intended tag keeps it. */
  lemma AsWrittenTagBreaksEscape(l: Level)
    ensures var n := |Open(l)|;
            && n <= |LevelTagAsWritten(true, l)| && LevelTagAsWritten(true, l)[n - 1] == 'M'
            && n <= |LevelTag(true, l)| && LevelTag(true, l)[n - 1] == 'm'
  {
    AsWrittenUppersOpen(l);
    IntendedKeepsOpen(l);
  }

  /** The tag as written upper-cases the last character of the opening sequence. */
  lemma AsWrittenUppersOpen(l: Level)
    ensures |Open(l)| <= |LevelTagAsWritten(true, l)|
    ensures LevelTagAsWritten(true, l)[|Open(l)| - 1] == 'M'
  {
    var o, rest := Open(l), LevelName(l) + Close;
    assert Paint(true, l, LevelName(l)) == o + rest;
    UpperBreaksOpening(o, rest);
  }

  /** Upper-casing a text that starts with a sequence ending in `m` turns that `m` into `M`. */
  lemma UpperBreaksOpening(o: string, rest: string)
    requires o != [] && o[|o| - 1] == 'm'
    ensures |o| <= |ToUpper(o + rest)| && ToUpper(o + rest)[|o| - 1] == 'M'
  {
    UpperAfter(o, rest);
  }

  /** The intended tag begins with the opening sequence intact. */
  lemma IntendedKeepsOpen(l: Level)
    ensures |Open(l)| <= |LevelTag(true, l)|
    ensures LevelTag(true, l)[|Open(l)| - 1] == 'm'
  {
    var o := Open(l);
    assert (o + ToUpper(LevelName(l)) + Close)[|o| - 1] == o[|o| - 1];
  }

  /** Upper-casing `p + x` upper-cases the last character of `p` in place. */
  lemma UpperAfter(p: string, x: string)
    requires p != []
    ensures |ToUpper(p + x)| == |p| + |x| && ToUpper(p + x)[|p| - 1] == UpperChar(p[|p| - 1])
  {
    assert (p + x)[|p| - 1] == p[|p| - 1];
  }

  /** Without colours the two tags are the same. */
  lemma TagsAgreeWithoutColour(l: Level)
    ensures LevelTagAsWritten(false, l) == LevelTag(false, l)
  {
  }

  /** Where the first line of a text ends: the position of its first newline, or its length. */
  function LineEnd(s: string): (k: nat)
    ensures k <= |s| && '\n' !in s[..k]
    ensures k < |s| ==> s[k] == '\n'
  {
    if s == [] || s[0] == '\n' then 0
    else
      var k := 1 + LineEnd(s[1..]);
      assert s[..k] == [s[0]] + s[1..][..k - 1];
      k
  }

  /** A text without a newline runs up to the newline that follows it. */
  lemma {:induction false} LineEndAfter(h: string, x: string)
    requires '\n' !in h
    ensures LineEnd(h + x) == |h| + LineEnd(x)
  {
    if h != [] {
      assert h[0] in h;
      assert (h + x)[1..] == h[1..] + x;
      assert forall c :: c in h[1..] ==> c in h;
      LineEndAfter(h[1..], x);
    } else {
      assert h + x == x;
    }
  }

  /** The header `customFormat` writes: `timestamp [LEVEL]: message`. */
  function Header(timestamp: string, tag: string, message: string): string {
    timestamp + " [" + tag + "]: " + message
  }

  /** A header without a newline followed by nothing, or by a newline and the JSON, splits
      back into the two at its first newline. */
  lemma SplitAtFirstLine(head: string, json: string)
    ensures '\n' !in head ==> LineEnd(head) == |head|
    ensures '\n' !in head ==> var line := head + "\n" + json;
      LineEnd(line) == |head| && line[..|head|] == head && line[|head| + 1..] == json
  {
    if '\n' !in head {
      LineEndAfter(head, []);
      assert head + [] == head;
      JsonAfterHead(head, json);
    }
  }

  lemma JsonAfterHead(head: string, json: string)
    requires '\n' !in head
    ensures var line := head + "\n" + json;
      LineEnd(line) == |head| && line[..|head|] == head && line[|head| + 1..] == json
  {
    var line := head + "\n" + json;
    LineEndAfter(head, "\n" + json);
    assert line == head + ("\n" + json);
    assert line[..|head|] == head;
    assert line[|head| + 1..] == json;
  }

  /** `customFormat`: the header, then the remaining properties as JSON on the next line
      when there is at least one. `stringify` stands for `JSON.stringify(meta, null, 2)`. */
  function FormatLine(timestamp: string, tag: string, message: string, meta: Record, stringify: Record -> string): (line: string)
    ensures StartsWith(line, Header(timestamp, tag, message))
  {
    var head := Header(timestamp, tag, message);
    if meta == [] then
      head
    else
      var line := head + "\n" + stringify(meta);
      assert line[..|head|] == head;
      line
  }

  /** When the timestamp, the tag and the message hold no newline, a reader splitting the
      line at its first newline gets the header back, finds a newline exactly when there are
      metadata, and reads their JSON after it. */
  lemma FormatLineReadsBack(timestamp: string, tag: string, message: string, meta: Record, stringify: Record -> string)
    requires '\n' !in timestamp && '\n' !in tag && '\n' !in message
    ensures var line := FormatLine(timestamp, tag, message, meta, stringify);
      && line[..LineEnd(line)] == Header(timestamp, tag, message)
      && (LineEnd(line) < |line| <==> meta != [])
      && (meta != [] ==> LineEnd(line) < |line| && line[LineEnd(line) + 1..] == stringify(meta))
  {
    var head := Header(timestamp, tag, message);
    assert '\n' !in head;
    SplitAtFirstLine(head, stringify(meta));
  }

  /** A tag that starts with an opening sequence `o` shows the sequence's last character
      in the line right after the timestamp, ` [` and the rest of `o`. */
  lemma OpenEndInLine(timestamp: string, tag: string, o: string, message: string, meta: Record,
                      stringify: Record -> string, c: char)
    requires 1 <= |o| <= |tag| && tag[|o| - 1] == c
    ensures |timestamp| + 1 + |o| < |FormatLine(timestamp, tag, message, meta, stringify)|
    ensures FormatLine(timestamp, tag, message, meta, stringify)[|timestamp| + 1 + |o|] == c
  {
    var head := Header(timestamp, tag, message);
    var line := FormatLine(timestamp, tag, message, meta, stringify);
    assert line[..|head|] == head;
    assert head == (timestamp + " [") + tag + ("]: " + message);
    assert head[|timestamp| + 2 + (|o| - 1)] == tag[|o| - 1];
  }

  /** The console line as written: `colorize({ all: true })` paints the level and the
      message, then `customFormat` upper-cases the painted level. With colours on, the
      printed opening sequence of the level ends in `M`. */
  function ConsoleLineAsWritten(enabled: bool, timestamp: string, l: Level, message: string, meta: Record,
                                stringify: Record -> string): (line: string)
    ensures StartsWith(line, Header(timestamp, LevelTagAsWritten(enabled, l), Paint(enabled, l, message)))
    ensures enabled ==> |timestamp| + 1 + |Open(l)| < |line| && line[|timestamp| + 1 + |Open(l)|] == 'M'
  {
    var tag := LevelTagAsWritten(enabled, l);
    var line := FormatLine(timestamp, tag, Paint(enabled, l, message), meta, stringify);
    if enabled then
      PrintedOpenAsWritten(timestamp, l, message, meta, stringify);
      line
    else line
  }

  /** With colours on, the line as written prints the level's opening sequence ending in `M`. */
  lemma PrintedOpenAsWritten(timestamp: string, l: Level, message: string, meta: Record, stringify: Record -> string)
    ensures |timestamp| + 1 + |Open(l)| < |FormatLine(timestamp, LevelTagAsWritten(true, l), Paint(true, l, message), meta, stringify)|
    ensures FormatLine(timestamp, LevelTagAsWritten(true, l), Paint(true, l, message), meta, stringify)[|timestamp| + 1 + |Open(l)|] == 'M'
  {
    AsWrittenUppersOpen(l);
    OpenEndInLine(timestamp, LevelTagAsWritten(true, l), Open(l), Paint(true, l, message), meta, stringify, 'M');
  }

  /** The console line as intended (the corrected line of the level-tag finding): the same
      layout around the intended tag, so the line holds the upper-case level between intact
      colour sequences. */
  function ConsoleLine(enabled: bool, timestamp: string, l: Level, message: string, meta: Record,
                       stringify: Record -> string): (line: string)
    ensures StartsWith(line, Header(timestamp, LevelTag(enabled, l), Paint(enabled, l, message)))
    ensures Contains(line, Paint(enabled, l, ToUpper(LevelName(l))))
    ensures enabled ==> |timestamp| + 1 + |Open(l)| < |line| && line[|timestamp| + 1 + |Open(l)|] == 'm'
  {
    var tag := LevelTag(enabled, l);
    var line := FormatLine(timestamp, tag, Paint(enabled, l, message), meta, stringify);
    TagContained(timestamp, tag, Paint(enabled, l, message), meta, stringify);
    if enabled then
      PrintedOpenIntended(timestamp, l, message, meta, stringify);
      line
    else line
  }

  /** With colours on, the intended line prints the level's opening sequence intact. */
  lemma PrintedOpenIntended(timestamp: string, l: Level, message: string, meta: Record, stringify: Record -> string)
    ensures |timestamp| + 1 + |Open(l)| < |FormatLine(timestamp, LevelTag(true, l), Paint(true, l, message), meta, stringify)|
    ensures FormatLine(timestamp, LevelTag(true, l), Paint(true, l, message), meta, stringify)[|timestamp| + 1 + |Open(l)|] == 'm'
  {
    IntendedKeepsOpen(l);
    OpenEndInLine(timestamp, LevelTag(true, l), Open(l), Paint(true, l, message), meta, stringify, 'm');
  }

  /** The line contains its tag. */
  lemma TagContained(timestamp: string, tag: string, message: string, meta: Record, stringify: Record -> string)
    ensures Contains(FormatLine(timestamp, tag, message, meta, stringify), tag)
  {
    var line := FormatLine(timestamp, tag, message, meta, stringify);
    var pre := timestamp + " [";
    var tail := line[|pre + tag|..];
    assert line[..|Header(timestamp, tag, message)|] == Header(timestamp, tag, message);
    assert line == pre + tag + tail;
    ContainsPrefixed(pre, tag, tail);
  }
}
