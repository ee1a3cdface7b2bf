/** The chat renderer of `lfm2d/src/chat.rs`, the refusals that keep its framing
    the only framing in the text, and a scanner that takes a rendered chat
    apart again. Strings are character sequences; `alnum` says which characters
    beyond ASCII Unicode calls alphanumeric. */
module Template {
  import opened Wrappers
  import opened Json
  import PyFloat
  import Text

  const BOS := "<|startoftext|>"
  const IM_START := "<|im_start|>"
  const IM_END := "<|im_end|>"
  const GENERATION_PROMPT := "<|im_start|>assistant\n"
  const TURN_END := "<|im_end|>\n"
  const AFTER_EOS := "\n"
  const CALLS_START := "<|tool_call_start|>["
  const CALLS_END := "]<|tool_call_end|>"
  const FINAL_TAG := "CONTINUE_FINAL_MESSAGE_TAG"

  datatype Refusal =
    ToolNotObject | ControlMarker | BlankTurn | EmptyAssistant | FinalTag | NoCalls | UnnamedCall | Unprintable

  datatype ToolCall = ToolCall(name: string, arguments: seq<(string, Value)>)

  datatype Message =
    | User(content: string)
    | Assistant(thinking: Option<string>, reply: Option<string>, calls: Option<seq<ToolCall>>)
    | Tool(result: string)

  datatype Chat = Chat(system: string, tools: seq<Value>, messages: seq<Message>)

  type Rendered = Result<string, Refusal>

  // ---- Refusals ----------------------------------------------------------

  /** `control_marker_in(text).is_some()`. */
  predicate HasMarker(s: string) {
    Text.Contains(s, "<|") || Text.Contains(s, "<think>") || Text.Contains(s, "</think>") || Text.Contains(s, "<image>")
  }

  /** Some string or key in the value, at any depth, holds a marker as it is. */
  predicate MarkerWithin(v: Value) {
    match v
    case Str(s) => HasMarker(s)
    case List(items) => exists x :: x in items && MarkerWithin(x)
    case Map(entries) => exists e :: e in entries && (HasMarker(e.0) || MarkerWithin(e.1))
    case _ => false
  }

  /** `char::is_whitespace`. */
  predicate IsBlankChar(c: char) {
    var n := c as int;
    9 <= n <= 13 || n == 0x20 || n == 0x85 || n == 0xA0 || n == 0x1680 || 0x2000 <= n <= 0x200A
    || n == 0x2028 || n == 0x2029 || n == 0x202F || n == 0x205F || n == 0x3000
  }

  predicate IsBlank(s: string) {
    forall i :: 0 <= i < |s| ==> IsBlankChar(s[i])
  }

  // ---- Python's `repr` ---------------------------------------------------

  function EscapePy(alnum: char -> bool, quote: char, c: char): Rendered {
    var n := c as int;
    if c == '\\' then Success("\\\\")
    else if c == '\n' then Success("\\n")
    else if c == '\r' then Success("\\r")
    else if c == '\t' then Success("\\t")
    else if c == quote then Success(['\\', c])
    else if 0x20 <= n <= 0x7E then Success([c])
    else if n < 0xA0 then Success("\\x" + [HexDigit(n / 16), HexDigit(n % 16)])
    else if alnum(c) then Success([c])
    else Failure(Unprintable)
  }

  function EscapedPy(alnum: char -> bool, quote: char, s: string): Rendered {
    if s == "" then Success("")
    else match EscapePy(alnum, quote, s[0])
      case Failure(e) => Failure(e)
      case Success(first) =>
        match EscapedPy(alnum, quote, s[1..])
        case Failure(e) => Failure(e)
        case Success(more) => Success(first + more)
  }

  /** Quoted with `'`, or with `"` when that saves escaping. */
  function PyStr(alnum: char -> bool, s: string): Rendered {
    var quote := if '\'' in s && '"' !in s then '"' else '\'';
    match EscapedPy(alnum, quote, s)
    case Failure(e) => Failure(e)
    case Success(t) => Success([quote] + t + [quote])
  }

  function PyRepr(alnum: char -> bool, v: Value): Rendered
    decreases v, 0
  {
    match v
    case Null => Success("None")
    case Bool(b) => Success(if b then "True" else "False")
    case Int(i) => Success(PyFloat.IntText(i))
    case Float(f) => Success(PyFloat.FloatText(f))
    case Str(s) => PyStr(alnum, s)
    case List(items) => Around("[", PyItems(alnum, items), "]")
    case Map(entries) => Around("{", PyEntries(alnum, entries), "}")
  }

  function Around(open: string, parts: Result<seq<string>, Refusal>, close: string): Rendered {
    match parts
    case Failure(e) => Failure(e)
    case Success(texts) => Success(open + Text.Join(texts, ", ") + close)
  }

  /** A result list, failing with the first failure. */
  function Cons(first: Rendered, more: Result<seq<string>, Refusal>): Result<seq<string>, Refusal> {
    match first
    case Failure(e) => Failure(e)
    case Success(t) =>
      match more
      case Failure(e) => Failure(e)
      case Success(ts) => Success([t] + ts)
  }

  function PyItems(alnum: char -> bool, items: seq<Value>): Result<seq<string>, Refusal>
    decreases items, 1
  {
    if items == [] then Success([]) else Cons(PyRepr(alnum, items[0]), PyItems(alnum, items[1..]))
  }

  function PyEntry(alnum: char -> bool, e: (string, Value)): Rendered
    decreases e, 1
  {
    match PyStr(alnum, e.0)
    case Failure(x) => Failure(x)
    case Success(key) =>
      match PyRepr(alnum, e.1)
      case Failure(x) => Failure(x)
      case Success(value) => Success(key + (": " + value))
  }

  function PyEntries(alnum: char -> bool, entries: seq<(string, Value)>): Result<seq<string>, Refusal>
    decreases entries, 1
  {
    if entries == [] then Success([]) else Cons(PyEntry(alnum, entries[0]), PyEntries(alnum, entries[1..]))
  }

  // ---- Turns ---------------------------------------------------------------

  /** A value after `key=`: a string raw in single quotes, an object as JSON,
      anything else as Python's `str()`. */
  function ArgumentText(alnum: char -> bool, v: Value): Rendered {
    match v
    case Str(s) => Success("'" + s + "'")
    case Map(_) => Success(ToJson(v))
    case _ => PyRepr(alnum, v)
  }

  function Argument(alnum: char -> bool, a: (string, Value)): Rendered {
    if HasMarker(a.0) || MarkerWithin(a.1) then Failure(ControlMarker)
    else match ArgumentText(alnum, a.1)
      case Failure(e) => Failure(e)
      case Success(t) => Success(a.0 + "=" + t)
  }

  function Arguments(alnum: char -> bool, args: seq<(string, Value)>): Result<seq<string>, Refusal> {
    if args == [] then Success([]) else Cons(Argument(alnum, args[0]), Arguments(alnum, args[1..]))
  }

  function RenderCall(alnum: char -> bool, c: ToolCall): Rendered {
    if c.name == "" then Failure(UnnamedCall)
    else if HasMarker(c.name) then Failure(ControlMarker)
    else Around(c.name + "(", Arguments(alnum, c.arguments), ")")
  }

  function RenderCalls(alnum: char -> bool, calls: seq<ToolCall>): Result<seq<string>, Refusal> {
    if calls == [] then Success([]) else Cons(RenderCall(alnum, calls[0]), RenderCalls(alnum, calls[1..]))
  }

  function ThinkingText(thinking: Option<string>): Rendered {
    match thinking
    case None => Success("")
    case Some(t) => if HasMarker(t) then Failure(ControlMarker) else Success("<think>" + t + "</think>")
  }

  function ReplyText(reply: Option<string>): Rendered {
    match reply
    case None => Success("")
    case Some(t) =>
      if HasMarker(t) then Failure(ControlMarker)
      else if Text.Contains(t, FINAL_TAG) then Failure(FinalTag)
      else Success(t)
  }

  function CallsText(alnum: char -> bool, calls: Option<seq<ToolCall>>): Rendered {
    match calls
    case None => Success("")
    case Some(cs) => if cs == [] then Failure(NoCalls) else Around(CALLS_START, RenderCalls(alnum, cs), CALLS_END)
  }

  function Role(m: Message): string {
    match m
    case User(_) => "user"
    case Assistant(_, _, _) => "assistant"
    case Tool(_) => "tool"
  }

  /** What a turn holds between its role line and its end. */
  function Body(alnum: char -> bool, m: Message): Rendered {
    match m
    case User(content) =>
      if IsBlank(content) then Failure(BlankTurn)
      else if HasMarker(content) then Failure(ControlMarker)
      else Success(content)
    case Tool(content) => if HasMarker(content) then Failure(ControlMarker) else Success(content)
    case Assistant(thinking, reply, calls) =>
      if thinking.None? && reply.None? && calls.None? then Failure(EmptyAssistant)
      else match ThinkingText(thinking)
        case Failure(e) => Failure(e)
        case Success(t) =>
          match ReplyText(reply)
          case Failure(e) => Failure(e)
          case Success(r) =>
            match CallsText(alnum, calls)
            case Failure(e) => Failure(e)
            case Success(c) => Success(t + r + c)
  }

  /** A turn as the template frames it. */
  function Framed(role: string, body: string): string {
    IM_START + (role + "\n" + body) + TURN_END
  }

  /** `Message::render`. */
  function Render(alnum: char -> bool, m: Message): Rendered {
    match Body(alnum, m)
    case Failure(e) => Failure(e)
    case Success(b) => Success(Framed(Role(m), b))
  }

  // ---- The head and the whole chat ----------------------------------------

  function ToolTexts(tools: seq<Value>): Result<seq<string>, Refusal> {
    if tools == [] then Success([])
    else if !tools[0].Map? then Failure(ToolNotObject)
    else if HasMarker(ToJson(tools[0])) then Failure(ControlMarker)
    else Cons(Success(ToJson(tools[0])), ToolTexts(tools[1..]))
  }

  /** The system turn's text: the prompt, then the tools on a line of their own. */
  function Prompt(system: string, tools: seq<Value>): Rendered {
    match ToolTexts(tools)
    case Failure(e) => Failure(e)
    case Success(texts) =>
      if HasMarker(system) then Failure(ControlMarker)
      else if tools == [] then Success(system)
      else Success((if system == "" then "" else system + "\n") + ("List of tools: [" + Text.Join(texts, ", ") + "]"))
  }

  function RenderHead(system: string, tools: seq<Value>): Rendered {
    match Prompt(system, tools)
    case Failure(e) => Failure(e)
    case Success(p) => Success(if p == "" then BOS else BOS + Framed("system", p))
  }

  function RenderTurns(alnum: char -> bool, messages: seq<Message>): Result<seq<string>, Refusal> {
    if messages == [] then Success([]) else Cons(Render(alnum, messages[0]), RenderTurns(alnum, messages[1..]))
  }

  /** `Chat::render_segments`: the head's text and each message's. */
  function RenderSegments(alnum: char -> bool, chat: Chat): Result<seq<string>, Refusal> {
    Cons(RenderHead(chat.system, chat.tools), RenderTurns(alnum, chat.messages))
  }

  function Concat(parts: seq<string>): string {
    if parts == [] then "" else parts[0] + Concat(parts[1..])
  }

  // ---- Taking a rendered chat apart ----------------------------------------

  datatype Turn = Turn(role: string, body: string)

  datatype Scanned = Scanned(prompt: string, turns: seq<Turn>)

  function ScanTurns(s: string): Option<seq<Turn>>
    decreases |s|
  {
    if s == "" then Some([])
    else if !(IM_START <= s) then None
    else
      var rest := s[|IM_START|..];
      match Text.Find(rest, TURN_END)
      case None => None
      case Some(end) =>
        match Text.Find(rest[..end], "\n")
        case None => None
        case Some(line) =>
          match ScanTurns(rest[end + |TURN_END|..])
          case None => None
          case Some(turns) => Some([Turn(rest[..line], rest[..end][line + 1..])] + turns)
  }

  function Scan(s: string): Option<Scanned> {
    if !(BOS <= s) then None
    else match ScanTurns(s[|BOS|..])
      case None => None
      case Some(turns) =>
        if turns != [] && turns[0].role == "system" then Some(Scanned(turns[0].body, turns[1..]))
        else Some(Scanned("", turns))
  }

  // ---- No accepted text forms `<|` -----------------------------------------

  ghost predicate Clean(s: string) {
    Text.Free(s, "<|")
  }

  lemma {:induction false} CleanJoin(a: string, b: string)
    requires Clean(a) && Clean(b)
    requires a == "" || b == "" || a[|a| - 1] != '<' || b[0] != '|'
    ensures Clean(a + b)
  {
    Text.FreeJoin(a, b, "<|");
  }

  lemma {:induction false} AngleAt(s: string, i: int)
    ensures Text.At(s, i, "<|") <==> 0 <= i < |s| - 1 && s[i] == '<' && s[i + 1] == '|'
  {
  }

  lemma {:induction false} NoAngleClean(s: string)
    requires '<' !in s || '|' !in s
    ensures Clean(s)
  {
    forall i
      ensures !Text.At(s, i, "<|")
    {
      AngleAt(s, i);
    }
  }

  lemma {:induction false} CleanTail(s: string)
    requires Clean(s) && s != ""
    ensures Clean(s[1..]) && (|s| > 1 ==> s[0] != '<' || s[1] != '|')
  {
    AngleAt(s, 0);
    forall i
      ensures !Text.At(s[1..], i, "<|")
    {
      AngleAt(s[1..], i);
      AngleAt(s, i + 1);
    }
  }

  lemma {:induction false} EscapedClean(s: string)
    requires Clean(s)
    ensures Clean(Escaped(s))
    ensures s != "" ==> Escaped(s) != "" && (Escaped(s)[0] == s[0] || Escaped(s)[0] == '\\')
  {
    if s == "" {
      NoAngleClean("");
    } else {
      CleanTail(s);
      EscapedClean(s[1..]);
      NoAngleClean(EscapeChar(s[0]));
      CleanJoin(EscapeChar(s[0]), Escaped(s[1..]));
    }
  }

  lemma {:induction false} QuotedClean(s: string)
    requires Clean(s)
    ensures Clean(Quoted(s))
  {
    EscapedClean(s);
    NoAngleClean("\"");
    CleanJoin("\"", Escaped(s));
    CleanJoin("\"" + Escaped(s), "\"");
  }

  lemma {:induction false} EscapedPyClean(alnum: char -> bool, quote: char, s: string)
    requires Clean(s) && (quote == '"' || quote == '\'') && EscapedPy(alnum, quote, s).Success?
    ensures var t := EscapedPy(alnum, quote, s).value;
      Clean(t) && (s != "" ==> t != "" && (t[0] == s[0] || t[0] == '\\'))
  {
    if s == "" {
      NoAngleClean("");
    } else {
      CleanTail(s);
      EscapedPyClean(alnum, quote, s[1..]);
      var first := EscapePy(alnum, quote, s[0]).value;
      NoAngleClean(first);
      CleanJoin(first, EscapedPy(alnum, quote, s[1..]).value);
    }
  }

  lemma {:induction false} PyStrClean(alnum: char -> bool, s: string)
    requires Clean(s) && PyStr(alnum, s).Success?
    ensures Clean(PyStr(alnum, s).value)
  {
    var quote := if '\'' in s && '"' !in s then '"' else '\'';
    EscapedPyClean(alnum, quote, s);
    NoAngleClean([quote]);
    var t := EscapedPy(alnum, quote, s).value;
    CleanJoin([quote], t);
    CleanJoin([quote] + t, [quote]);
  }

  ghost predicate AllClean(texts: seq<string>) {
    forall t :: t in texts ==> Clean(t)
  }

  lemma {:induction false} JoinClean(texts: seq<string>)
    requires AllClean(texts)
    ensures Clean(Text.Join(texts, ", "))
  {
    if texts == [] {
      NoAngleClean("");
    } else if |texts| > 1 {
      JoinClean(texts[1..]);
      NoAngleClean(", ");
      CleanJoin(texts[0], ", ");
      CleanJoin(texts[0] + ", ", Text.Join(texts[1..], ", "));
    }
  }

  /** Clean parts stay clean between an opening and a closing text. */
  lemma {:induction false} AroundClean(open: string, texts: seq<string>, close: string)
    requires AllClean(texts) && Clean(open) && Clean(close) && open != "" && open[|open| - 1] != '<'
    requires close != "" ==> close[0] != '|'
    ensures Clean(open + Text.Join(texts, ", ") + close)
  {
    var body := Text.Join(texts, ", ");
    JoinClean(texts);
    CleanJoin(open, body);
    CleanJoin(open + body, close);
  }

  lemma {:induction false} NumberClean(v: Value)
    requires v.Int? || v.Float?
    ensures Clean(ToJson(v))
  {
    if v.Float? {
      Json.FloatTextLooks(v.f);
    }
    NoAngleClean(ToJson(v));
  }

  lemma {:induction false} JsonClean(v: Value)
    requires !MarkerWithin(v)
    ensures Clean(ToJson(v))
    decreases v, 0
  {
    match v {
      case Str(s) => QuotedClean(s);
      case List(items) =>
        ItemsClean(items);
        NoAngleClean("[");
        NoAngleClean("]");
        AroundClean("[", Items(items), "]");
      case Map(entries) =>
        EntriesClean(entries);
        NoAngleClean("{");
        NoAngleClean("}");
        AroundClean("{", Entries(entries), "}");
      case Null => NoAngleClean("null");
      case Bool(b) => NoAngleClean(ToJson(v));
      case _ => NumberClean(v);
    }
  }

  lemma {:induction false} ItemsClean(items: seq<Value>)
    requires forall x :: x in items ==> !MarkerWithin(x)
    ensures AllClean(Items(items))
    decreases items, 1
  {
    if items != [] {
      JsonClean(items[0]);
      ItemsClean(items[1..]);
    }
  }

  lemma {:induction false} EntryClean(e: (string, Value))
    requires !HasMarker(e.0) && !MarkerWithin(e.1)
    ensures Clean(Entry(e))
    decreases e, 1
  {
    QuotedClean(e.0);
    JsonClean(e.1);
    NoAngleClean(": ");
    CleanJoin(": ", ToJson(e.1));
    CleanJoin(Quoted(e.0), ": " + ToJson(e.1));
  }

  lemma {:induction false} EntriesClean(entries: seq<(string, Value)>)
    requires forall e :: e in entries ==> !HasMarker(e.0) && !MarkerWithin(e.1)
    ensures AllClean(Entries(entries))
    decreases entries, 1
  {
    if entries != [] {
      assert entries[0] in entries;
      EntryClean(entries[0]);
      EntriesClean(entries[1..]);
    }
  }

  lemma {:induction false} ReprClean(alnum: char -> bool, v: Value)
    requires !MarkerWithin(v) && PyRepr(alnum, v).Success?
    ensures Clean(PyRepr(alnum, v).value)
    decreases v, 0
  {
    match v {
      case Str(s) => PyStrClean(alnum, s);
      case List(items) =>
        ReprItemsClean(alnum, items);
        NoAngleClean("[");
        NoAngleClean("]");
        AroundClean("[", PyItems(alnum, items).value, "]");
      case Map(entries) =>
        ReprEntriesClean(alnum, entries);
        NoAngleClean("{");
        NoAngleClean("}");
        AroundClean("{", PyEntries(alnum, entries).value, "}");
      case Null => NoAngleClean("None");
      case Bool(b) => NoAngleClean(PyRepr(alnum, v).value);
      case _ => NumberClean(v);
    }
  }

  lemma {:induction false} ReprItemsClean(alnum: char -> bool, items: seq<Value>)
    requires (forall x :: x in items ==> !MarkerWithin(x)) && PyItems(alnum, items).Success?
    ensures AllClean(PyItems(alnum, items).value)
    decreases items, 1
  {
    if items != [] {
      ReprClean(alnum, items[0]);
      ReprItemsClean(alnum, items[1..]);
    }
  }

  lemma {:induction false} ReprEntryClean(alnum: char -> bool, e: (string, Value))
    requires !HasMarker(e.0) && !MarkerWithin(e.1) && PyEntry(alnum, e).Success?
    ensures Clean(PyEntry(alnum, e).value)
    decreases e, 1
  {
    var key, value := PyStr(alnum, e.0).value, PyRepr(alnum, e.1).value;
    PyStrClean(alnum, e.0);
    ReprClean(alnum, e.1);
    NoAngleClean(": ");
    CleanJoin(": ", value);
    CleanJoin(key, ": " + value);
  }

  lemma {:induction false} ReprEntriesClean(alnum: char -> bool, entries: seq<(string, Value)>)
    requires forall e :: e in entries ==> !HasMarker(e.0) && !MarkerWithin(e.1)
    requires PyEntries(alnum, entries).Success?
    ensures AllClean(PyEntries(alnum, entries).value)
    decreases entries, 1
  {
    if entries != [] {
      assert entries[0] in entries;
      ReprEntryClean(alnum, entries[0]);
      ReprEntriesClean(alnum, entries[1..]);
    }
  }

  lemma {:induction false} ArgumentClean(alnum: char -> bool, a: (string, Value))
    requires Argument(alnum, a).Success?
    ensures Clean(Argument(alnum, a).value)
  {
    var t := ArgumentText(alnum, a.1).value;
    match a.1 {
      case Str(s) =>
        NoAngleClean("'");
        CleanJoin("'", s);
        CleanJoin("'" + s, "'");
      case Map(_) => JsonClean(a.1);
      case _ => ReprClean(alnum, a.1);
    }
    NoAngleClean("=");
    CleanJoin(a.0, "=");
    CleanJoin(a.0 + "=", t);
  }

  lemma {:induction false} ArgumentsClean(alnum: char -> bool, args: seq<(string, Value)>)
    requires Arguments(alnum, args).Success?
    ensures AllClean(Arguments(alnum, args).value)
  {
    if args != [] {
      ArgumentClean(alnum, args[0]);
      ArgumentsClean(alnum, args[1..]);
    }
  }

  lemma {:induction false} CallsClean(alnum: char -> bool, calls: seq<ToolCall>)
    requires RenderCalls(alnum, calls).Success?
    ensures AllClean(RenderCalls(alnum, calls).value)
  {
    if calls != [] {
      var c := calls[0];
      ArgumentsClean(alnum, c.arguments);
      NoAngleClean("(");
      NoAngleClean(")");
      CleanJoin(c.name, "(");
      AroundClean(c.name + "(", Arguments(alnum, c.arguments).value, ")");
      CallsClean(alnum, calls[1..]);
    }
  }

  // ---- Python's string literals read back -----------------------------------

  /** The character a Python escape stands for, after its `\\`, and what follows. */
  function ReadPyEscape(s: string): Option<(char, string)> {
    if s == "" then None
    else match s[0] {
      case '\\' => Some(('\\', s[1..]))
      case '\'' => Some(('\'', s[1..]))
      case '"' => Some(('"', s[1..]))
      case 'n' => Some(('\n', s[1..]))
      case 'r' => Some(('\r', s[1..]))
      case 't' => Some(('\t', s[1..]))
      case 'x' =>
        if |s| < 3 then None else
          (match (HexVal(s[1]), HexVal(s[2]))
           case (Some(a), Some(b)) => Some(((a * 16 + b) as char, s[3..]))
           case _ => None)
      case _ => None
    }
  }

  /** What a literal opened by `quote` holds, and what follows its end. */
  function ReadPy(quote: char, s: string): (r: Option<(string, string)>)
    ensures r.Some? ==> |r.value.1| < |s|
    decreases |s|
  {
    if s == "" then None
    else if s[0] == quote then Some(("", s[1..]))
    else if s[0] == '\\' then
      match ReadPyEscape(s[1..])
      case None => None
      case Some((c, rest)) =>
        (match ReadPy(quote, rest)
         case None => None
         case Some((cs, after)) => Some(([c] + cs, after)))
    else
      match ReadPy(quote, s[1..])
      case None => None
      case Some((cs, after)) => Some(([s[0]] + cs, after))
  }

  lemma {:induction false} HexReads(d: nat)
    requires d < 16
    ensures HexVal(HexDigit(d)) == Some(d)
  {
  }

  lemma {:induction false} EscapePyReads(alnum: char -> bool, quote: char, c: char, t: string, rest: string)
    requires (quote == '"' || quote == '\'') && EscapePy(alnum, quote, c) == Success(t)
    ensures t != ""
    ensures if t[0] == '\\' then ReadPyEscape((t + rest)[1..]) == Some((c, rest)) else t == [c] && c != quote
  {
    if |t| == 2 {
      assert (t + rest)[1..][1..] == rest;
    } else if |t| == 4 {
      HexReads(c as int / 16);
      HexReads(c as int % 16);
      assert (t + rest)[1..][3..] == rest;
    }
  }

  lemma {:induction false} EscapedPyReads(alnum: char -> bool, quote: char, s: string, t: string)
    requires (quote == '"' || quote == '\'') && EscapedPy(alnum, quote, s) == Success(t)
    ensures ReadPy(quote, t + [quote]) == Some((s, ""))
  {
    if s == "" {
      assert (t + [quote])[1..] == "";
    } else {
      var first, more := EscapePy(alnum, quote, s[0]).value, EscapedPy(alnum, quote, s[1..]).value;
      var tail := more + [quote];
      EscapedPyReads(alnum, quote, s[1..], more);
      EscapePyReads(alnum, quote, s[0], first, tail);
      Text.Assoc(first, more, [quote]);
      Text.DropHead(first, tail);
      assert [s[0]] + s[1..] == s;
    }
  }

  /** A character beyond Latin-1's controls that Unicode does not call
      alphanumeric has no literal here. */
  predicate Printable(alnum: char -> bool, c: char) {
    c as int < 0xA0 || alnum(c)
  }

  lemma {:induction false} EscapedPyRefused(alnum: char -> bool, quote: char, s: string)
    requires quote == '"' || quote == '\''
    ensures EscapedPy(alnum, quote, s).Success? <==> forall c :: c in s ==> Printable(alnum, c)
  {
    if s != "" {
      EscapedPyRefused(alnum, quote, s[1..]);
      assert s == [s[0]] + s[1..];
      assert EscapePy(alnum, quote, s[0]).Success? <==> Printable(alnum, s[0]);
    }
  }

  /** A literal reads back as its string and ends where it ends; it is refused
      exactly for a character that has no literal, and takes double quotes
      exactly where they save escaping. */
  lemma {:induction false} PyStrReads(alnum: char -> bool, s: string)
    ensures var r := PyStr(alnum, s);
      && (r.Success? <==> forall c :: c in s ==> Printable(alnum, c))
      && (r.Success? ==> r.value != "" && ReadPy(r.value[0], r.value[1..]) == Some((s, "")))
      && (r.Success? ==> r.value[0] == if '\'' in s && '"' !in s then '"' else '\'')
  {
    var quote := if '\'' in s && '"' !in s then '"' else '\'';
    EscapedPyRefused(alnum, quote, s);
    if PyStr(alnum, s).Success? {
      var t := EscapedPy(alnum, quote, s).value;
      EscapedPyReads(alnum, quote, s, t);
      Text.Assoc([quote], t, [quote]);
      Text.DropHead([quote], t + [quote]);
    }
  }

  // ---- The framing is the only framing --------------------------------------

  lemma {:induction false} CleanHasNoEnd(s: string)
    requires Clean(s)
    ensures Text.Free(s, IM_END)
  {
    Text.FreeOfLonger(s, "<|", IM_END);
  }

  lemma {:induction false} EndFreeJoin(a: string, b: string)
    requires Text.Free(a, IM_END) && Text.Free(b, IM_END)
    requires a == "" || b == "" || b[0] == '<' || b[0] == ']' || a[|a| - 1] == '[' || a[|a| - 1] == '\n'
    ensures Text.Free(a + b, IM_END)
  {
    Text.FreeJoin(a, b, IM_END);
  }

  lemma {:induction false} ConstantFree(s: string)
    requires s == CALLS_START || s == CALLS_END
    ensures Text.Free(s, IM_END)
  {
    forall i
      ensures !Text.At(s, i, IM_END)
    {
      if 0 <= i && i + 10 <= |s| {
        assert s[i..i + 10][2] == s[i + 2];
        assert s[i..i + 10][0] == s[i];
      }
    }
  }

  lemma {:induction false} CallsTextFree(alnum: char -> bool, calls: Option<seq<ToolCall>>)
    requires CallsText(alnum, calls).Success?
    ensures var t := CallsText(alnum, calls).value; Text.Free(t, IM_END) && (t != "" ==> t[0] == '<')
  {
    match calls {
      case None => NoAngleClean(""); CleanHasNoEnd("");
      case Some(cs) =>
        var body := Text.Join(RenderCalls(alnum, cs).value, ", ");
        CallsClean(alnum, cs);
        JoinClean(RenderCalls(alnum, cs).value);
        CleanHasNoEnd(body);
        ConstantFree(CALLS_START);
        ConstantFree(CALLS_END);
        EndFreeJoin(CALLS_START, body);
        EndFreeJoin(CALLS_START + body, CALLS_END);
    }
  }

  lemma {:induction false} ThinkingClean(thinking: Option<string>)
    requires ThinkingText(thinking).Success?
    ensures var t := ThinkingText(thinking).value; Clean(t) && (t != "" ==> t[|t| - 1] == '>')
  {
    match thinking {
      case None => NoAngleClean("");
      case Some(x) =>
        NoAngleClean("<think>");
        NoAngleClean("</think>");
        CleanJoin("<think>", x);
        CleanJoin("<think>" + x, "</think>");
    }
  }

  /** A turn's body never holds the text that ends a turn. */
  lemma {:induction false} BodyFree(alnum: char -> bool, m: Message)
    requires Body(alnum, m).Success?
    ensures Text.Free(Body(alnum, m).value, IM_END)
  {
    match m {
      case User(content) => CleanHasNoEnd(content);
      case Tool(content) => CleanHasNoEnd(content);
      case Assistant(thinking, reply, calls) =>
        var t, r, c := ThinkingText(thinking).value, ReplyText(reply).value, CallsText(alnum, calls).value;
        ThinkingClean(thinking);
        if reply.None? {
          NoAngleClean("");
        }
        CleanJoin(t, r);
        CleanHasNoEnd(t + r);
        CallsTextFree(alnum, calls);
        EndFreeJoin(t + r, c);
    }
  }

  lemma {:induction false} RoleLine(role: string, body: string)
    requires '\n' !in role && '<' !in role && Text.Free(body, IM_END)
    ensures Text.Free(role + "\n" + body, IM_END)
  {
    NoAngleClean(role + "\n");
    CleanHasNoEnd(role + "\n");
    EndFreeJoin(role + "\n", body);
  }

  lemma {:induction false} FindLine(role: string, body: string)
    requires '\n' !in role
    ensures Text.Find(role + "\n" + body, "\n") == Some(|role|)
  {
    Text.FreeOfChar(role, '\n');
    Text.FindAtJoin(role, "\n", body);
  }

  /** The scanner takes one framed turn off the front. */
  lemma {:induction false} ScanFramed(role: string, body: string, t: string, more: string, s: string)
    requires '\n' !in role && '<' !in role && Text.Free(body, IM_END)
    requires t == Framed(role, body) && s == t + more
    ensures ScanTurns(s) == match ScanTurns(more)
      case None => None
      case Some(turns) => Some([Turn(role, body)] + turns)
  {
    hide Text.Free, Text.Find, Text.At, ScanTurns;
    var inside := role + "\n" + body;
    RoleLine(role, body);
    Text.FreeOfLonger(inside, IM_END, TURN_END);
    Text.FindAtJoin(inside, TURN_END, more);
    FindLine(role, body);
    FramedParts(role, body, inside, IM_START, TURN_END, more, s);
    ScanAhead(role, body, inside, IM_START, TURN_END, more, s);
  }

  lemma {:induction false} FramedParts(
      role: string, body: string, inside: string, start: string, end: string, more: string, s: string)
    requires inside == role + "\n" + body && start == IM_START && end == TURN_END && s == Framed(role, body) + more
    ensures s == start + (inside + end + more)
  {
    assert Framed(role, body) == start + (inside + end);
    Text.Assoc(start, inside + end, more);
  }

  /** One framed turn ahead is the first the scanner reads. */
  lemma {:induction false} ScanAhead(
      role: string, body: string, inside: string, start: string, end: string, more: string, s: string)
    requires start == IM_START && end == TURN_END && s == start + (inside + end + more)
    requires inside == role + "\n" + body && Text.Find(inside, "\n") == Some(|role|)
    requires Text.Find(inside + end + more, end) == Some(|inside|)
    ensures ScanTurns(s) == match ScanTurns(more)
      case None => None
      case Some(turns) => Some([Turn(role, body)] + turns)
  {
    hide Text.Free, Text.Find, Text.At, ScanTurns;
    var rest := inside + end + more;
    Text.DropHead(start, rest);
    ThreeCut(inside, end, more);
    ThreeCut(role, "\n", body);
    assert rest[..|inside|][..|role|] == rest[..|role|];
    ScanStep(s, rest, end, |inside|, |role|);
  }

  lemma {:induction false} ThreeCut(a: string, b: string, c: string)
    ensures (a + b + c)[..|a|] == a && (a + b + c)[|a| + |b|..] == c
  {
  }

  lemma {:induction false} ScanStep(s: string, rest: string, end: string, at: nat, line: nat)
    requires IM_START <= s && rest == s[|IM_START|..] && end == TURN_END
    requires Text.Find(rest, end) == Some(at) && Text.Find(rest[..at], "\n") == Some(line)
    ensures ScanTurns(s) == match ScanTurns(rest[at + |end|..])
      case None => None
      case Some(turns) => Some([Turn(rest[..line], rest[..at][line + 1..])] + turns)
  {
    hide Text.Free, Text.Find, Text.At;
  }

  function Turns(alnum: char -> bool, messages: seq<Message>): seq<Turn> {
    if messages == [] then []
    else match Body(alnum, messages[0])
      case Failure(_) => []
      case Success(b) => [Turn(Role(messages[0]), b)] + Turns(alnum, messages[1..])
  }

  lemma {:induction false} ScanOne(alnum: char -> bool, m: Message, t: string, more: string, s: string)
    requires Render(alnum, m) == Success(t) && s == t + more
    ensures Body(alnum, m).Success?
    ensures ScanTurns(s) == match ScanTurns(more)
      case None => None
      case Some(turns) => Some([Turn(Role(m), Body(alnum, m).value)] + turns)
  {
    BodyFree(alnum, m);
    ScanFramed(Role(m), Body(alnum, m).value, t, more, s);
  }

  lemma {:induction false} ScanMessages(alnum: char -> bool, messages: seq<Message>, texts: seq<string>)
    requires RenderTurns(alnum, messages) == Success(texts)
    ensures ScanTurns(Concat(texts)) == Some(Turns(alnum, messages))
  {
    if messages != [] {
      var s, more := Concat(texts), Concat(texts[1..]);
      RenderTurnsCons(alnum, messages, texts);
      ScanMessages(alnum, messages[1..], texts[1..]);
      ScanOne(alnum, messages[0], texts[0], more, s);
    }
  }

  lemma {:induction false} RenderTurnsCons(alnum: char -> bool, messages: seq<Message>, texts: seq<string>)
    requires RenderTurns(alnum, messages) == Success(texts) && messages != []
    ensures texts != [] && Render(alnum, messages[0]) == Success(texts[0])
    ensures RenderTurns(alnum, messages[1..]) == Success(texts[1..])
  {
  }

  lemma {:induction false} ToolTextsClean(tools: seq<Value>)
    requires ToolTexts(tools).Success?
    ensures AllClean(ToolTexts(tools).value)
  {
    if tools != [] {
      ToolTextsClean(tools[1..]);
    }
  }

  lemma {:induction false} PromptClean(system: string, tools: seq<Value>)
    requires Prompt(system, tools).Success?
    ensures Clean(Prompt(system, tools).value)
  {
    if tools != [] {
      var texts := ToolTexts(tools).value;
      var before := if system == "" then "" else system + "\n";
      ToolTextsClean(tools);
      NoAngleClean("");
      NoAngleClean("\n");
      CleanJoin(system, "\n");
      NoAngleClean("List of tools: [");
      NoAngleClean("]");
      AroundClean("List of tools: [", texts, "]");
      CleanJoin(before, "List of tools: [" + Text.Join(texts, ", ") + "]");
    }
  }

  /** The head in front of already scanned turns. */
  lemma {:induction false} ScanBareHead(turns: seq<Turn>, more: string, s: string)
    requires ScanTurns(more) == Some(turns) && (turns != [] ==> turns[0].role != "system")
    requires s == BOS + more
    ensures Scan(s) == Some(Scanned("", turns))
  {
    Text.DropHead(BOS, more);
  }

  lemma {:induction false} ScanPromptHead(prompt: string, t: string, turns: seq<Turn>, more: string, s: string)
    requires Clean(prompt) && ScanTurns(more) == Some(turns)
    requires t == Framed("system", prompt) && s == BOS + t + more
    ensures Scan(s) == Some(Scanned(prompt, turns))
  {
    hide ScanTurns, Text.Free, Text.At, Framed;
    var rest := t + more;
    assert BOS <= s && s[|BOS|..] == rest by {
      Text.Assoc(BOS, t, more);
      Text.DropHead(BOS, rest);
    }
    assert ScanTurns(rest) == Some([Turn("system", prompt)] + turns) by {
      CleanHasNoEnd(prompt);
      ScanFramed("system", prompt, t, more, rest);
    }
    assert ([Turn("system", prompt)] + turns)[1..] == turns;
  }

  /** Scanning a rendered chat recovers the system turn's text and every turn's
      role and body: what the renderer writes is the only framing there. */
  lemma {:induction false} ScanRecovers(alnum: char -> bool, chat: Chat)
    requires RenderSegments(alnum, chat).Success?
    ensures Scan(Concat(RenderSegments(alnum, chat).value))
         == Some(Scanned(Prompt(chat.system, chat.tools).value, Turns(alnum, chat.messages)))
  {
    var prompt := Prompt(chat.system, chat.tools).value;
    var texts := RenderTurns(alnum, chat.messages).value;
    var segments := RenderSegments(alnum, chat).value;
    assert segments[1..] == texts;
    ScanMessages(alnum, chat.messages, texts);
    NoSystemTurn(alnum, chat.messages);
    PromptClean(chat.system, chat.tools);
    if prompt == "" {
      ScanBareHead(Turns(alnum, chat.messages), Concat(texts), Concat(segments));
    } else {
      ScanPromptHead(
        prompt, Framed("system", prompt), Turns(alnum, chat.messages), Concat(texts), Concat(segments));
    }
  }

  lemma {:induction false} ToolTextsAre(tools: seq<Value>)
    ensures ToolTexts(tools).Success? ==> ToolTexts(tools).value == Items(tools)
    ensures ToolTexts(tools).Success? <==> forall t :: t in tools ==> t.Map? && !HasMarker(ToJson(t))
  {
    if tools != [] {
      ToolTextsAre(tools[1..]);
      assert tools == [tools[0]] + tools[1..];
    }
  }

  /** The head's text is the system text and, on the line after it, the tools as
      one JSON list that reads back as they were given. It is refused exactly for
      a tool that is no object, or for a marker in a tool's JSON or in the system
      text. */
  lemma {:induction false} PromptReads(system: string, tools: seq<Value>, lead: string)
    requires lead == (if system == "" then "" else system + "\n") + "List of tools: "
    ensures var r := Prompt(system, tools);
      && (r.Success? && tools == [] ==> r.value == system)
      && (r.Success? && tools != [] ==> lead <= r.value && ReadJson(r.value[|lead|..]) == Some(List(tools)))
      && (r.Success? <==> !HasMarker(system) && forall t :: t in tools ==> t.Map? && !HasMarker(ToJson(t)))
  {
    ToolTextsAre(tools);
    if Prompt(system, tools).Success? && tools != [] {
      var listed := Text.Join(Items(tools), ", ");
      ListReads(tools, listed);
      assert "List of tools: [" == "List of tools: " + "[";
      Listing(if system == "" then "" else system + "\n", "List of tools: ", listed, lead);
    }
  }

  lemma {:induction false} ListReads(tools: seq<Value>, listed: string)
    requires listed == Text.Join(Items(tools), ", ")
    ensures ReadJson("[" + listed + "]") == Some(List(tools))
  {
    JsonRoundTrip(List(tools));
    assert ToJson(List(tools)) == "[" + listed + "]";
  }

  lemma {:induction false} Listing(before: string, words: string, listed: string, lead: string)
    requires lead == before + words
    ensures before + (words + "[" + listed + "]") == lead + ("[" + listed + "]")
    ensures lead <= lead + ("[" + listed + "]") && (lead + ("[" + listed + "]"))[|lead|..] == "[" + listed + "]"
  {
    assert words + "[" + listed + "]" == words + ("[" + listed + "]");
    Text.Assoc(before, words, "[" + listed + "]");
    Text.DropHead(lead, "[" + listed + "]");
  }

  lemma {:induction false} NoSystemTurn(alnum: char -> bool, messages: seq<Message>)
    ensures Turns(alnum, messages) != [] ==> Turns(alnum, messages)[0].role != "system"
  {
  }

  /** Two accepted chats with the same bytes have the same system text, as many
      turns, and turn by turn the same role, body and bytes. */
  lemma {:induction false} RenderingInjective(alnum: char -> bool, a: Chat, b: Chat)
    requires RenderSegments(alnum, a).Success? && RenderSegments(alnum, b).Success?
    requires Concat(RenderSegments(alnum, a).value) == Concat(RenderSegments(alnum, b).value)
    ensures RenderSegments(alnum, a) == RenderSegments(alnum, b)
    ensures Turns(alnum, a.messages) == Turns(alnum, b.messages)
    ensures |a.messages| == |b.messages|
  {
    ScanRecovers(alnum, a);
    ScanRecovers(alnum, b);
    TurnsRender(alnum, a.messages);
    TurnsRender(alnum, b.messages);
  }

  /** A turn's text as the message it came from asks for it: a user's or a
      tool's content as it is, an assistant's thinking in its tags, then its
      reply, then its calls between their markers. */
  ghost predicate Holds(m: Message, role: string, body: string) {
    match m
    case User(content) => role == "user" && body == content && !IsBlank(content) && Clean(content)
    case Tool(result) => role == "tool" && body == result && Clean(result)
    case Assistant(thinking, reply, calls) =>
      var spoken := (if thinking.Some? then "<think>" + thinking.value + "</think>" else "") + reply.GetOr("");
      && role == "assistant" && spoken <= body && Clean(spoken)
      && (thinking.Some? || reply.Some? || calls.Some?)
      && (calls.None? ==> body == spoken)
      && (calls.Some? ==> calls.value != [] && CALLS_START <= body[|spoken|..] && Text.EndsWith(body, CALLS_END))
  }

  lemma {:induction false} SpokenHolds(thinking: Option<string>, reply: Option<string>, t: string, r: string)
    requires ThinkingText(thinking) == Success(t) && ReplyText(reply) == Success(r)
    ensures Clean(t + r)
    ensures t + r == (if thinking.Some? then "<think>" + thinking.value + "</think>" else "") + reply.GetOr("")
  {
    ThinkingClean(thinking);
    if reply.None? {
      NoAngleClean("");
    }
    CleanJoin(t, r);
  }

  lemma {:induction false} CallsHold(
      alnum: char -> bool, calls: Option<seq<ToolCall>>, spoken: string, c: string, body: string)
    requires CallsText(alnum, calls) == Success(c) && body == spoken + c
    ensures spoken <= body && body[|spoken|..] == c && (calls.None? ==> body == spoken)
    ensures calls.Some? ==> calls.value != [] && CALLS_START <= c && Text.EndsWith(body, CALLS_END)
  {
    Text.DropHead(spoken, c);
    if calls.Some? {
      var listed := Text.Join(RenderCalls(alnum, calls.value).value, ", ");
      Ends(CALLS_START, listed, CALLS_END, spoken, c, body);
    }
  }

  lemma {:induction false} Ends(open: string, listed: string, close: string, spoken: string, c: string, body: string)
    requires c == open + listed + close && body == spoken + c
    ensures open <= c && Text.EndsWith(body, close)
  {
    Text.Assoc(open, listed, close);
    assert body[|body| - |close|..] == close;
  }

  lemma {:induction false} BodyHolds(alnum: char -> bool, m: Message)
    requires Body(alnum, m).Success?
    ensures Holds(m, Role(m), Body(alnum, m).value)
  {
    match m {
      case User(_) =>
      case Tool(_) =>
      case Assistant(thinking, reply, calls) =>
        var t, r, c := ThinkingText(thinking).value, ReplyText(reply).value, CallsText(alnum, calls).value;
        SpokenHolds(thinking, reply, t, r);
        CallsHold(alnum, calls, t + r, c, t + r + c);
        hide ThinkingText, ReplyText, CallsText, Clean, Text.EndsWith, HasMarker;
    }
  }

  /** The turns scanned from a rendered chat are its messages, one by one. */
  lemma {:induction false} TurnsHold(alnum: char -> bool, messages: seq<Message>, k: nat)
    requires RenderTurns(alnum, messages).Success? && k < |messages|
    ensures k < |Turns(alnum, messages)|
    ensures Holds(messages[k], Turns(alnum, messages)[k].role, Turns(alnum, messages)[k].body)
  {
    BodyHolds(alnum, messages[0]);
    if k > 0 {
      TurnsHold(alnum, messages[1..], k - 1);
    }
  }

  /** A string argument stands raw in single quotes and an object reads back as
      JSON, each after its key; neither is there with a marker inside. */
  lemma {:induction false} ArgumentReads(alnum: char -> bool, a: (string, Value), t: string)
    requires Argument(alnum, a) == Success(t)
    ensures a.0 + "=" <= t && Clean(a.0)
    ensures var written := t[|a.0 + "="|..];
      && (a.1.Str? ==> written == "'" + a.1.s + "'" && Clean(a.1.s))
      && (a.1.Map? ==> ReadJson(written) == Some(a.1))
  {
    Text.DropHead(a.0 + "=", ArgumentText(alnum, a.1).value);
    if a.1.Map? {
      JsonRoundTrip(a.1);
    }
  }

  function FramedTurns(turns: seq<Turn>): seq<string> {
    if turns == [] then [] else [Framed(turns[0].role, turns[0].body)] + FramedTurns(turns[1..])
  }

  lemma {:induction false} TurnsRender(alnum: char -> bool, messages: seq<Message>)
    requires RenderTurns(alnum, messages).Success?
    ensures RenderTurns(alnum, messages).value == FramedTurns(Turns(alnum, messages))
    ensures |Turns(alnum, messages)| == |messages|
  {
    if messages != [] {
      TurnsRender(alnum, messages[1..]);
    }
  }

  /** No turn's bytes depend on a later turn: the first `k` messages render to
      the first `k + 1` segments. */
  lemma {:induction false} PrefixTurns(alnum: char -> bool, messages: seq<Message>, k: nat, texts: seq<string>)
    requires RenderTurns(alnum, messages) == Success(texts) && k <= |messages|
    ensures |texts| == |messages| && RenderTurns(alnum, messages[..k]) == Success(texts[..k])
  {
    if messages != [] {
      assert RenderTurns(alnum, messages[1..]) == Success(texts[1..]);
      if k == 0 {
        PrefixTurns(alnum, messages[1..], 0, texts[1..]);
        assert messages[..0] == [] && texts[..0] == [];
      } else {
        PrefixTurns(alnum, messages[1..], k - 1, texts[1..]);
        assert messages[..k][1..] == messages[1..][..k - 1] && messages[..k][0] == messages[0];
        assert texts[..k] == [texts[0]] + texts[1..][..k - 1];
      }
    }
  }

  lemma {:induction false} ConcatSplit(a: seq<string>, b: seq<string>)
    ensures Concat(a + b) == Concat(a) + Concat(b)
  {
    if a == [] {
      assert a + b == b;
    } else {
      ConcatSplit(a[1..], b);
      assert (a + b)[1..] == a[1..] + b;
      Text.Assoc(a[0], Concat(a[1..]), Concat(b));
    }
  }

  lemma {:induction false} ConsPrefix(head: Rendered, texts: seq<string>, segments: seq<string>, k: nat)
    requires Cons(head, Success(texts)) == Success(segments) && k <= |texts|
    ensures k + 1 <= |segments| && Cons(head, Success(texts[..k])) == Success(segments[..k + 1])
  {
    assert segments[..k + 1] == [segments[0]] + texts[..k];
  }

  /** Rendering the first `k` messages gives the first `k + 1` segments, a byte
      prefix of the whole chat. */
  lemma {:induction false} RenderingPrefix(alnum: char -> bool, chat: Chat, part: Chat, k: nat, segments: seq<string>)
    requires RenderSegments(alnum, chat) == Success(segments) && k <= |chat.messages|
    requires part == chat.(messages := chat.messages[..k])
    ensures k + 1 <= |segments|
    ensures RenderSegments(alnum, part) == Success(segments[..k + 1])
    ensures Concat(segments[..k + 1]) <= Concat(segments)
  {
    var head, texts := RenderHead(chat.system, chat.tools), RenderTurns(alnum, chat.messages).value;
    PrefixTurns(alnum, chat.messages, k, texts);
    ConsPrefix(head, texts, segments, k);
    ConcatPrefix(segments, k + 1);
  }

  lemma {:induction false} ConcatPrefix(parts: seq<string>, k: nat)
    requires k <= |parts|
    ensures Concat(parts[..k]) <= Concat(parts)
  {
    assert parts == parts[..k] + parts[k..];
    ConcatSplit(parts[..k], parts[k..]);
  }
}
