/** A JSON value as the chat template sees it, the writer `tojson` of
    `lfm2d/src/chat.rs`, and a reader for RFC 8259 that inverts it. */
module Json {
  import opened Wrappers
  import opened Numerals
  import opened PyFloat
  import Text

  /** `TemplateValue`: an object is a list of pairs, and integers and
      floats are apart. */
  datatype Value =
    | Null
    | Bool(b: bool)
    | Int(i: int)
    | Float(f: NormalDecimal)
    | Str(s: string)
    | List(items: seq<Value>)
    | Map(entries: seq<(string, Value)>)

  // ---- Strings ---------------------------------------------------------

  function HexDigit(d: nat): char
    requires d < 16
  {
    if d < 10 then '0' + d as char else 'a' + (d - 10) as char
  }

  function EscapeChar(c: char): string {
    if c == '"' then "\\\""
    else if c == '\\' then "\\\\"
    else if c == '\n' then "\\n"
    else if c == '\r' then "\\r"
    else if c == '\t' then "\\t"
    else if c as int == 8 then "\\b"
    else if c as int == 12 then "\\f"
    else if c as int < 0x20 then "\\u00" + [HexDigit(c as int / 16), HexDigit(c as int % 16)]
    else [c]
  }

  function Escaped(s: string): string {
    if s == "" then "" else EscapeChar(s[0]) + Escaped(s[1..])
  }

  /** `json_string`: Python's string encoding with `ensure_ascii=False`. */
  function Quoted(s: string): string {
    "\"" + Escaped(s) + "\""
  }

  function HexVal(c: char): Option<nat> {
    if '0' <= c <= '9' then Some((c - '0') as nat)
    else if 'a' <= c <= 'f' then Some((c - 'a') as nat + 10)
    else if 'A' <= c <= 'F' then Some((c - 'A') as nat + 10)
    else None
  }

  /** The character after `\`, and how much it takes; a `\u` escape names one
      character, so a surrogate half is refused. */
  function ReadEscape(s: string): Option<(char, string)> {
    if s == "" then None
    else match s[0] {
      case '"' => Some(('"', s[1..]))
      case '\\' => Some(('\\', s[1..]))
      case '/' => Some(('/', s[1..]))
      case 'b' => Some((8 as char, s[1..]))
      case 'f' => Some((12 as char, s[1..]))
      case 'n' => Some(('\n', s[1..]))
      case 'r' => Some(('\r', s[1..]))
      case 't' => Some(('\t', s[1..]))
      case 'u' =>
        if |s| < 5 then None else
          (match (HexVal(s[1]), HexVal(s[2]), HexVal(s[3]), HexVal(s[4]))
           case (Some(a), Some(b), Some(c), Some(d)) =>
             var v := ((a * 16 + b) * 16 + c) * 16 + d;
             if v < 0xD800 || 0xE000 <= v < 0x10000 then Some((v as char, s[5..])) else None
           case _ => None)
      case _ => None
    }
  }

  /** A string's content up to its closing quote, and what follows it. */
  function ReadChars(s: string): (r: Option<(string, string)>)
    ensures r.Some? ==> |r.value.1| < |s|
    decreases |s|
  {
    if s == "" || s[0] as int < 0x20 then None
    else if s[0] == '"' then Some(("", s[1..]))
    else if s[0] == '\\' then
      match ReadEscape(s[1..])
      case None => None
      case Some((c, rest)) =>
        (match ReadChars(rest)
         case None => None
         case Some((cs, after)) => Some(([c] + cs, after)))
    else
      match ReadChars(s[1..])
      case None => None
      case Some((cs, after)) => Some(([s[0]] + cs, after))
  }

  lemma {:induction false} EscapeReads(c: char, rest: string)
    ensures var e := EscapeChar(c) + rest;
      if |EscapeChar(c)| == 1 then e[0] == c && e[1..] == rest && c as int >= 0x20 && c != '"' && c != '\\'
      else e[0] == '\\' && ReadEscape(e[1..]) == Some((c, rest))
  {
    var e := EscapeChar(c) + rest;
    if |EscapeChar(c)| == 2 {
      assert e[1..][1..] == rest;
    } else if |EscapeChar(c)| == 6 {
      assert e[1..][5..] == rest;
    }
  }

  lemma {:induction false} StringReads(s: string, rest: string)
    ensures ReadChars(Escaped(s) + "\"" + rest) == Some((s, rest))
  {
    if s == "" {
      assert Escaped(s) + "\"" + rest == "\"" + rest;
    } else {
      var tail := Escaped(s[1..]) + "\"" + rest;
      StringReads(s[1..], rest);
      EscapeReads(s[0], tail);
      Text.Assoc(EscapeChar(s[0]), Escaped(s[1..]), "\"");
      Text.Assoc(EscapeChar(s[0]), Escaped(s[1..]) + "\"", rest);
      assert [s[0]] + s[1..] == s;
    }
  }

  // ---- Values ----------------------------------------------------------

  /** `tojson`: what Python's JSON writer gives with its default separators and
      characters beyond ASCII left as they are. */
  function ToJson(v: Value): string
    decreases v, 0
  {
    match v
    case Null => "null"
    case Bool(b) => if b then "true" else "false"
    case Int(i) => IntText(i)
    case Float(f) => FloatText(f)
    case Str(s) => Quoted(s)
    case List(items) => "[" + Text.Join(Items(items), ", ") + "]"
    case Map(entries) => "{" + Text.Join(Entries(entries), ", ") + "}"
  }

  function Items(items: seq<Value>): (texts: seq<string>)
    ensures |texts| == |items|
    decreases items, 1
  {
    if items == [] then [] else [ToJson(items[0])] + Items(items[1..])
  }

  function Entry(e: (string, Value)): string
    decreases e, 1
  {
    Quoted(e.0) + (": " + ToJson(e.1))
  }

  function Entries(entries: seq<(string, Value)>): (texts: seq<string>)
    ensures |texts| == |entries|
    decreases entries, 1
  {
    if entries == [] then [] else [Entry(entries[0])] + Entries(entries[1..])
  }

  // ---- The reader: tokens, then values -----------------------------------

  datatype Token = Mark(c: char) | Word(v: Value) | Quote(s: string)

  predicate IsSpace(c: char) {
    c == ' ' || c == '\t' || c == '\n' || c == '\r'
  }

  predicate IsMark(c: char) {
    c == '[' || c == ']' || c == '{' || c == '}' || c == ',' || c == ':'
  }

  predicate IsNumberChar(c: char) {
    IsDigit(c) || c == '-' || c == '+' || c == '.' || c == 'e' || c == 'E'
  }

  function NumberSpan(s: string): (n: nat)
    ensures n <= |s| && (forall i :: 0 <= i < n ==> IsNumberChar(s[i])) && (n < |s| ==> !IsNumberChar(s[n]))
  {
    if s != "" && IsNumberChar(s[0]) then 1 + NumberSpan(s[1..]) else 0
  }

  function NumberValue(n: Number): Value {
    match n
    case Whole(i) => Int(i)
    case Scaled(negative, m, e) => Float(Normalise(negative, m, e))
  }

  /** The token at the start of `s` (none for a space) and what follows it. */
  function NextToken(s: string): (r: Option<(seq<Token>, string)>)
    requires s != ""
    ensures r.Some? ==> |r.value.1| < |s|
  {
    var c := s[0];
    if IsSpace(c) then Some(([], s[1..]))
    else if IsMark(c) then Some(([Mark(c)], s[1..]))
    else if c == '"' then
      (match ReadChars(s[1..])
       case None => None
       case Some((x, rest)) => Some(([Quote(x)], rest)))
    else if c == '-' || IsDigit(c) then
      (match ReadNumber(s[..NumberSpan(s)])
       case None => None
       case Some(n) => Some(([Word(NumberValue(n))], s[NumberSpan(s)..])))
    else if "null" <= s then Some(([Word(Null)], s[4..]))
    else if "true" <= s then Some(([Word(Bool(true))], s[4..]))
    else if "false" <= s then Some(([Word(Bool(false))], s[5..]))
    else None
  }

  function Lex(s: string): Option<seq<Token>>
    decreases |s|
  {
    if s == "" then Some([])
    else match NextToken(s)
      case None => None
      case Some((tokens, rest)) => Prepend(tokens, Lex(rest))
  }

  function Prepend(tokens: seq<Token>, more: Option<seq<Token>>): Option<seq<Token>> {
    match more
    case None => None
    case Some(ts) => Some(tokens + ts)
  }

  /** The value at the start of a token list, and the tokens after it. */
  function ParseValue(ts: seq<Token>): (r: Option<(Value, seq<Token>)>)
    ensures r.Some? ==> |r.value.1| < |ts|
    decreases |ts|, 0
  {
    if ts == [] then None
    else match ts[0]
      case Word(v) => Some((v, ts[1..]))
      case Quote(s) => Some((Str(s), ts[1..]))
      case Mark(c) =>
        if c == '[' then
          if |ts| > 1 && ts[1] == Mark(']') then Some((List([]), ts[2..]))
          else (match ParseItems(ts[1..])
                case None => None
                case Some((items, rest)) => Some((List(items), rest)))
        else if c == '{' then
          if |ts| > 1 && ts[1] == Mark('}') then Some((Map([]), ts[2..]))
          else (match ParseEntries(ts[1..])
                case None => None
                case Some((entries, rest)) => Some((Map(entries), rest)))
        else None
  }

  /** One or more values up to the closing bracket. */
  function ParseItems(ts: seq<Token>): (r: Option<(seq<Value>, seq<Token>)>)
    ensures r.Some? ==> |r.value.1| < |ts|
    decreases |ts|, 1
  {
    match ParseValue(ts)
    case None => None
    case Some((v, rest)) =>
      if rest == [] then None
      else if rest[0] == Mark(']') then Some(([v], rest[1..]))
      else if rest[0] == Mark(',') then
        (match ParseItems(rest[1..])
         case None => None
         case Some((vs, after)) => Some(([v] + vs, after)))
      else None
  }

  /** A key, its colon and its value. */
  function ParseEntry(ts: seq<Token>): (r: Option<((string, Value), seq<Token>)>)
    ensures r.Some? ==> |r.value.1| < |ts|
    decreases |ts|, 1
  {
    if |ts| < 2 || !ts[0].Quote? || ts[1] != Mark(':') then None
    else match ParseValue(ts[2..])
      case None => None
      case Some((v, rest)) => Some(((ts[0].s, v), rest))
  }

  /** One or more entries up to the closing brace. */
  function ParseEntries(ts: seq<Token>): (r: Option<(seq<(string, Value)>, seq<Token>)>)
    ensures r.Some? ==> |r.value.1| < |ts|
    decreases |ts|, 2
  {
    match ParseEntry(ts)
    case None => None
    case Some((e, rest)) =>
      if rest == [] then None
      else if rest[0] == Mark('}') then Some(([e], rest[1..]))
      else if rest[0] == Mark(',') then
        (match ParseEntries(rest[1..])
         case None => None
         case Some((es, after)) => Some(([e] + es, after)))
      else None
  }

  /** A whole JSON text: exactly one value. */
  function ReadJson(s: string): Option<Value> {
    match Lex(s)
    case None => None
    case Some(ts) =>
      match ParseValue(ts)
      case None => None
      case Some((v, rest)) => if rest == [] then Some(v) else None
  }

  // ---- Values and their tokens -------------------------------------------

  function Tokens(v: Value): seq<Token>
    decreases v, 0
  {
    match v
    case Str(s) => [Quote(s)]
    case List(items) => [Mark('[')] + ItemTokens(items) + [Mark(']')]
    case Map(entries) => [Mark('{')] + EntryTokens(entries) + [Mark('}')]
    case _ => [Word(v)]
  }

  function ItemTokens(items: seq<Value>): seq<Token>
    decreases items, 1
  {
    if items == [] then []
    else if |items| == 1 then Tokens(items[0])
    else Tokens(items[0]) + [Mark(',')] + ItemTokens(items[1..])
  }

  function OneEntry(e: (string, Value)): seq<Token>
    decreases e, 1
  {
    [Quote(e.0), Mark(':')] + Tokens(e.1)
  }

  function EntryTokens(entries: seq<(string, Value)>): seq<Token>
    decreases entries, 1
  {
    if entries == [] then []
    else if |entries| == 1 then OneEntry(entries[0])
    else OneEntry(entries[0]) + [Mark(',')] + EntryTokens(entries[1..])
  }

  /** Parsing a value's tokens gives the value back, whatever follows. */
  lemma {:induction false} TokensParse(v: Value, rest: seq<Token>, ts: seq<Token>)
    requires ts == Tokens(v) + rest
    ensures ParseValue(ts) == Some((v, rest))
    decreases v, 0
  {
    match v {
      case List(items) =>
        ItemsStart(items);
        var tail := [Mark(']')] + rest;
        assert ts[1..] == ItemTokens(items) + tail;
        if items == [] {
          assert ts[1..] == tail && ts[2..] == rest;
        } else {
          ItemsParse(items, rest, ts[1..]);
        }
        hide ItemTokens, ParseItems;
      case Map(entries) =>
        EntriesStart(entries);
        var tail := [Mark('}')] + rest;
        assert ts[1..] == EntryTokens(entries) + tail;
        if entries == [] {
          assert ts[1..] == tail && ts[2..] == rest;
        } else {
          EntriesParse(entries, rest, ts[1..]);
        }
        hide EntryTokens, ParseEntries;
      case _ =>
        assert ts[1..] == rest;
    }
  }

  lemma {:induction false} ItemsStart(items: seq<Value>)
    ensures if items == [] then ItemTokens(items) == []
      else ItemTokens(items) != [] && ItemTokens(items)[0] != Mark(']')
  {
    if items != [] {
      assert Tokens(items[0]) != [] && Tokens(items[0])[0] != Mark(']');
    }
  }

  lemma {:induction false} EntriesStart(entries: seq<(string, Value)>)
    ensures if entries == [] then EntryTokens(entries) == []
      else EntryTokens(entries) != [] && EntryTokens(entries)[0] != Mark('}')
  {
  }

  lemma {:induction false} ItemsParse(items: seq<Value>, rest: seq<Token>, ts: seq<Token>)
    requires items != [] && ts == ItemTokens(items) + ([Mark(']')] + rest)
    ensures ParseItems(ts) == Some((items, rest))
    decreases items, 1
  {
    hide Tokens, ParseValue;
    var v := items[0];
    if |items| == 1 {
      TokensParse(v, [Mark(']')] + rest, ts);
      assert [v] == items;
    } else {
      var more := ItemTokens(items[1..]) + ([Mark(']')] + rest);
      assert ts == Tokens(v) + ([Mark(',')] + more);
      TokensParse(v, [Mark(',')] + more, ts);
      ItemsParse(items[1..], rest, more);
      assert [v] + items[1..] == items;
    }
  }

  lemma {:induction false} EntryParses(e: (string, Value), rest: seq<Token>, ts: seq<Token>)
    requires ts == OneEntry(e) + rest
    ensures ParseEntry(ts) == Some((e, rest))
    decreases e, 1
  {
    assert ts[2..] == Tokens(e.1) + rest;
    TokensParse(e.1, rest, ts[2..]);
  }

  lemma {:induction false} EntriesParse(entries: seq<(string, Value)>, rest: seq<Token>, ts: seq<Token>)
    requires entries != [] && ts == EntryTokens(entries) + ([Mark('}')] + rest)
    ensures ParseEntries(ts) == Some((entries, rest))
    decreases entries, 2
  {
    hide OneEntry, Tokens, ParseEntry, ParseValue;
    var e := entries[0];
    if |entries| == 1 {
      EntryParses(e, [Mark('}')] + rest, ts);
      assert [e] == entries;
    } else {
      var more := EntryTokens(entries[1..]) + ([Mark('}')] + rest);
      assert ts == OneEntry(e) + ([Mark(',')] + more);
      EntryParses(e, [Mark(',')] + more, ts);
      EntriesParse(entries[1..], rest, more);
      assert [e] + entries[1..] == entries;
    }
  }

  // ---- Texts and their tokens --------------------------------------------

  /** Lexing `s` gives `tokens`, then whatever `rest` gives. */
  predicate Emits(s: string, tokens: seq<Token>, rest: string) {
    Lex(s) == Prepend(tokens, Lex(rest))
  }

  lemma {:induction false} EmitsThen(a: string, ts: seq<Token>, b: string, us: seq<Token>, c: string)
    requires Emits(a, ts, b) && Emits(b, us, c)
    ensures Emits(a, ts + us, c)
  {
    if Lex(c).Some? {
      assert ts + us + Lex(c).value == ts + (us + Lex(c).value);
    }
  }

  lemma {:induction false} EmitsNothing(s: string)
    ensures Emits(s, [], s)
  {
    if Lex(s).Some? {
      assert [] + Lex(s).value == Lex(s).value;
    }
  }

  lemma {:induction false} EmitsNext(s: string, tokens: seq<Token>, rest: string)
    requires s != "" && NextToken(s) == Some((tokens, rest))
    ensures Emits(s, tokens, rest)
  {
  }

  lemma {:induction false} MarkEmits(c: char, rest: string, s: string)
    requires IsMark(c) && s == [c] + rest
    ensures Emits(s, [Mark(c)], rest)
  {
    assert s[1..] == rest;
    EmitsNext(s, [Mark(c)], rest);
  }

  /** `", "` and `": "`: a mark and a space. */
  lemma {:induction false} MarkSpaceEmits(c: char, rest: string, s: string)
    requires IsMark(c) && s == [c, ' '] + rest
    ensures Emits(s, [Mark(c)], rest)
  {
    MarkEmits(c, [' '] + rest, s);
    assert ([' '] + rest)[1..] == rest;
    EmitsNext([' '] + rest, [], rest);
    EmitsThen(s, [Mark(c)], [' '] + rest, [], rest);
    assert [Mark(c)] + [] == [Mark(c)];
  }

  /** What may follow a value: nothing that would extend a number. */
  predicate Stops(rest: string) {
    rest == "" || !IsNumberChar(rest[0])
  }

  lemma {:induction false} NumberSpanIs(t: string, rest: string, s: string)
    requires (forall i :: 0 <= i < |t| ==> IsNumberChar(t[i])) && Stops(rest) && s == t + rest
    ensures NumberSpan(s) == |t| && s[..|t|] == t && s[|t|..] == rest
  {
    var n := NumberSpan(s);
    assert forall i :: 0 <= i < |t| ==> s[i] == t[i];
    assert rest != "" ==> s[|t|] == rest[0];
  }

  lemma {:induction false} NumberToken(n: Number, s: string)
    requires s != "" && (s[0] == '-' || IsDigit(s[0])) && ReadNumber(s[..NumberSpan(s)]) == Some(n)
    ensures NextToken(s) == Some(([Word(NumberValue(n))], s[NumberSpan(s)..]))
  {
    hide ReadNumber, NumberSpan, NumberValue;
  }

  lemma {:induction false} NumberEmits(t: string, n: Number, rest: string, s: string)
    requires LooksNumber(t) && Stops(rest)
    requires ReadNumber(t) == Some(n) && s == t + rest
    ensures Emits(s, [Word(NumberValue(n))], rest)
  {
    assert s[0] == t[0];
    NumberSpanIs(t, rest, s);
    NumberToken(n, s);
    EmitsNext(s, [Word(NumberValue(n))], rest);
  }

  lemma {:induction false} IntEmits(i: int, rest: string, s: string)
    requires Stops(rest) && s == IntText(i) + rest
    ensures Emits(s, [Word(Int(i))], rest)
  {
    IntDenotes(i);
    NumberEmits(IntText(i), Whole(i), rest, s);
  }

  predicate LooksNumber(t: string) {
    t != "" && (t[0] == '-' || IsDigit(t[0])) && forall i :: 0 <= i < |t| ==> IsNumberChar(t[i])
  }

  lemma {:induction false} LooksJoined(a: string, b: string)
    requires LooksNumber(a) && forall i :: 0 <= i < |b| ==> IsNumberChar(b[i])
    ensures LooksNumber(a + b)
  {
  }

  lemma {:induction false} FloatLooksNumber(digits: string, exponent: int)
    requires ShortestDigits(digits, exponent)
    ensures LooksNumber(Magnitude(digits, exponent))
  {
    if -4 <= exponent < 0 {
      LooksJoined("0", "." + (Zeros(-1 - exponent) + digits));
    } else if |digits| - 1 <= exponent < 16 {
      LooksJoined(digits + Zeros(exponent + 1 - |digits|), "." + "0");
    } else if 0 <= exponent < 16 {
      LooksJoined(digits[..exponent + 1], "." + digits[exponent + 1..]);
    } else {
      if |digits| > 1 {
        LooksJoined(digits[..1], "." + digits[1..]);
      }
      LooksJoined(if |digits| > 1 then FixedText(digits[..1], digits[1..]) else digits, ExponentPart(exponent));
    }
  }

  /** A float's token reads back as the same normal decimal. */
  lemma {:induction false} FloatTextReads(d: NormalDecimal)
    ensures ReadNumber(FloatText(d)).Some? && NumberValue(ReadNumber(FloatText(d)).value) == Float(d)
  {
    var digits := Digits(d.mantissa);
    var exponent := d.exponent + |digits| - 1;
    var r := ReadNumber(FloatText(d));
    assert Val(digits) == d.mantissa && Denotes(r, d.negative, digits, exponent) by {
      ValDigits(d.mantissa);
      FloatDenotes(d.negative, digits, exponent);
    }
    DenotedValue(d, digits, exponent, r);
  }

  lemma {:induction false} DenotedValue(d: NormalDecimal, digits: string, exponent: int, r: Option<Number>)
    requires AllDigits(digits) && Val(digits) == d.mantissa && exponent == d.exponent + |digits| - 1
    requires Denotes(r, d.negative, digits, exponent)
    ensures NumberValue(r.value) == Float(d)
  {
    NormaliseScaled(d, d.exponent - r.value.exponent, r.value.mantissa);
  }

  lemma {:induction false} FloatTextLooks(d: NormalDecimal)
    ensures LooksNumber(FloatText(d))
  {
    hide Magnitude;
    ValDigits(d.mantissa);
    FloatLooksNumber(Digits(d.mantissa), d.exponent + |Digits(d.mantissa)| - 1);
  }

  lemma {:induction false} FloatEmits(d: NormalDecimal, rest: string, s: string)
    requires Stops(rest) && s == FloatText(d) + rest
    ensures Emits(s, [Word(Float(d))], rest)
  {
    FloatTextReads(d);
    FloatTextLooks(d);
    NumberEmits(FloatText(d), ReadNumber(FloatText(d)).value, rest, s);
  }

  lemma {:induction false} WordEmits(v: Value, rest: string, s: string)
    requires (v.Null? || v.Bool?) && s == ToJson(v) + rest
    ensures Emits(s, [Word(v)], rest)
  {
    var word := ToJson(v);
    assert s[0] == word[0] && s[..|word|] == word && s[|word|..] == rest;
    EmitsNext(s, [Word(v)], rest);
  }

  lemma {:induction false} StringEmits(x: string, rest: string, s: string)
    requires s == Quoted(x) + rest
    ensures Emits(s, [Quote(x)], rest)
  {
    StringReads(x, rest);
    assert s[1..] == Escaped(x) + "\"" + rest;
    EmitsNext(s, [Quote(x)], rest);
  }

  /** Lexing a value's text gives the value's tokens: every string escape, key
      order, ints as ints and floats as floats. */
  lemma {:induction false} ValueEmits(v: Value, rest: string, s: string)
    requires Stops(rest) && s == ToJson(v) + rest
    ensures Emits(s, Tokens(v), rest)
    decreases v, 0
  {
    match v {
      case Null => WordEmits(v, rest, s);
      case Bool(b) => WordEmits(v, rest, s);
      case Int(i) => IntEmits(i, rest, s);
      case Float(f) => FloatEmits(f, rest, s);
      case Str(x) => StringEmits(x, rest, s);
      case List(items) =>
        var body := Text.Join(Items(items), ", ") + ("]" + rest);
        assert s == "[" + body;
        ItemsEmit(items, rest, body);
        Wrapped('[', ItemTokens(items), body, ']', rest, s);
      case Map(entries) =>
        var body := Text.Join(Entries(entries), ", ") + ("}" + rest);
        assert s == "{" + body;
        EntriesEmit(entries, rest, body);
        Wrapped('{', EntryTokens(entries), body, '}', rest, s);
    }
  }

  /** A body between an opening and a closing mark. */
  lemma {:induction false} Wrapped(open: char, inside: seq<Token>, body: string, close: char, rest: string, s: string)
    requires IsMark(open) && IsMark(close) && s == [open] + body && Emits(body, inside, [close] + rest)
    ensures Emits(s, [Mark(open)] + inside + [Mark(close)], rest)
  {
    MarkEmits(open, body, s);
    MarkEmits(close, rest, [close] + rest);
    EmitsThen(s, [Mark(open)], body, inside, [close] + rest);
    EmitsThen(s, [Mark(open)] + inside, [close] + rest, [Mark(close)], rest);
  }

  lemma {:induction false} ItemsEmit(items: seq<Value>, rest: string, s: string)
    requires s == Text.Join(Items(items), ", ") + ("]" + rest)
    ensures Emits(s, ItemTokens(items), "]" + rest)
    decreases items, 1
  {
    if items == [] {
      assert s == "]" + rest;
      EmitsNothing(s);
    } else if |items| == 1 {
      ValueEmits(items[0], "]" + rest, s);
    } else {
      var more := Text.Join(Items(items[1..]), ", ") + ("]" + rest);
      assert Items(items)[1..] == Items(items[1..]);
      assert s == ToJson(items[0]) + (", " + more);
      ValueEmits(items[0], ", " + more, s);
      ItemsEmit(items[1..], rest, more);
      Listed(s, Tokens(items[0]), more, ItemTokens(items[1..]), "]" + rest);
    }
  }

  /** One element, a comma, and the elements after it. */
  lemma {:induction false} Listed(s: string, first: seq<Token>, more: string, others: seq<Token>, rest: string)
    requires Emits(s, first, ", " + more) && Emits(more, others, rest)
    ensures Emits(s, first + [Mark(',')] + others, rest)
  {
    MarkSpaceEmits(',', more, ", " + more);
    EmitsThen(s, first, ", " + more, [Mark(',')], more);
    EmitsThen(s, first + [Mark(',')], more, others, rest);
  }

  lemma {:induction false} EntryEmits(e: (string, Value), rest: string, s: string)
    requires Stops(rest) && s == Entry(e) + rest
    ensures Emits(s, OneEntry(e), rest)
    decreases e, 1
  {
    var value := ToJson(e.1) + rest;
    assert s == Quoted(e.0) + (": " + value);
    StringEmits(e.0, ": " + value, s);
    MarkSpaceEmits(':', value, ": " + value);
    ValueEmits(e.1, rest, value);
    EmitsThen(s, [Quote(e.0)], ": " + value, [Mark(':')], value);
    EmitsThen(s, [Quote(e.0)] + [Mark(':')], value, Tokens(e.1), rest);
    assert [Quote(e.0)] + [Mark(':')] == [Quote(e.0), Mark(':')];
  }

  lemma {:induction false} EntriesEmit(entries: seq<(string, Value)>, rest: string, s: string)
    requires s == Text.Join(Entries(entries), ", ") + ("}" + rest)
    ensures Emits(s, EntryTokens(entries), "}" + rest)
    decreases entries, 2
  {
    if entries == [] {
      assert s == "}" + rest;
      EmitsNothing(s);
    } else if |entries| == 1 {
      EntryEmits(entries[0], "}" + rest, s);
    } else {
      var more := Text.Join(Entries(entries[1..]), ", ") + ("}" + rest);
      assert Entries(entries)[1..] == Entries(entries[1..]);
      assert s == Entry(entries[0]) + (", " + more);
      EntryEmits(entries[0], ", " + more, s);
      EntriesEmit(entries[1..], rest, more);
      Listed(s, OneEntry(entries[0]), more, EntryTokens(entries[1..]), "}" + rest);
    }
  }

  /** The reader inverts the writer on every nested value. */
  lemma {:induction false} JsonRoundTrip(v: Value)
    ensures ReadJson(ToJson(v)) == Some(v)
  {
    assert ToJson(v) + "" == ToJson(v);
    ValueEmits(v, "", ToJson(v));
    assert Tokens(v) + [] == Tokens(v);
    TokensParse(v, [], Tokens(v));
  }

  // ---- The writers as the source runs them: appending to one text --------

  method WriteString(s: string, start: string) returns (out: string)
    ensures out == start + Quoted(s)
  {
    out := start + "\"";
    for i := 0 to |s|
      invariant out + Escaped(s[i..]) == start + "\"" + Escaped(s)
    {
      assert s[i..][1..] == s[i + 1..];
      Text.Assoc(out, EscapeChar(s[i]), Escaped(s[i + 1..]));
      out := out + EscapeChar(s[i]);
    }
    assert out + Escaped(s[|s|..]) == out;
    out := out + "\"";
    Bracketed(start, "\"", Escaped(s), "\"");
  }

  /** What a loop that has written the first `i` parts has written. */
  function Written(parts: seq<string>, i: nat): string
    requires i <= |parts|
  {
    Text.Join(parts[..i], ", ")
  }

  lemma {:induction false} WrittenStep(parts: seq<string>, i: nat, start: string, out: string)
    requires i < |parts| && out == start + Written(parts, i)
    ensures out + (if i > 0 then ", " else "") + parts[i] == start + Written(parts, i + 1)
  {
    assert parts[..i + 1] == parts[..i] + [parts[i]];
    Text.JoinSnoc(parts[..i], parts[i], ", ");
    if i > 0 {
      Text.Assoc(start, Written(parts, i), ", ");
      Text.Assoc(start, Written(parts, i) + ", ", parts[i]);
    }
  }

  lemma {:induction false} ItemAt(items: seq<Value>, i: nat)
    requires i < |items|
    ensures Items(items)[i] == ToJson(items[i])
  {
    if i > 0 {
      ItemAt(items[1..], i - 1);
    }
  }

  lemma {:induction false} EntryAt(entries: seq<(string, Value)>, i: nat)
    requires i < |entries|
    ensures Entries(entries)[i] == Entry(entries[i])
  {
    if i > 0 {
      EntryAt(entries[1..], i - 1);
    }
  }

  lemma {:induction false} Bracketed(start: string, open: string, body: string, close: string)
    ensures start + open + body + close == start + (open + body + close)
  {
  }

  method WriteJson(v: Value, start: string) returns (out: string)
    ensures out == start + ToJson(v)
    decreases v, 0
  {
    match v {
      case Null => out := start + "null";
      case Bool(b) => out := start + if b then "true" else "false";
      case Int(i) => out := start + IntText(i);
      case Float(f) => out := start + FloatText(f);
      case Str(s) => out := WriteString(s, start);
      case List(items) =>
        out := WriteItems(items, start + "[");
        out := out + "]";
        Bracketed(start, "[", Text.Join(Items(items), ", "), "]");
      case Map(entries) =>
        out := WriteEntries(entries, start + "{");
        out := out + "}";
        Bracketed(start, "{", Text.Join(Entries(entries), ", "), "}");
    }
  }

  method WriteItems(items: seq<Value>, start: string) returns (out: string)
    ensures out == start + Text.Join(Items(items), ", ")
    decreases items, 1
  {
    out := start;
    ghost var parts := Items(items);
    for i := 0 to |items|
      invariant |parts| == |items| && out == start + Written(parts, i)
    {
      WrittenStep(parts, i, start, out);
      ItemAt(items, i);
      if i > 0 {
        out := out + ", ";
      }
      out := WriteJson(items[i], out);
    }
    assert parts[..|items|] == parts;
  }

  method WriteEntries(entries: seq<(string, Value)>, start: string) returns (out: string)
    ensures out == start + Text.Join(Entries(entries), ", ")
    decreases entries, 2
  {
    out := start;
    ghost var parts := Entries(entries);
    for i := 0 to |entries|
      invariant |parts| == |entries| && out == start + Written(parts, i)
    {
      WrittenStep(parts, i, start, out);
      EntryAt(entries, i);
      if i > 0 {
        out := out + ", ";
      }
      assert entries[i] in entries;
      out := WriteEntry(entries[i], out);
    }
    assert parts[..|entries|] == parts;
  }

  method WriteEntry(e: (string, Value), start: string) returns (out: string)
    ensures out == start + Entry(e)
    decreases e, 1
  {
    out := WriteString(e.0, start);
    out := out + ": ";
    out := WriteJson(e.1, out);
    Text.Assoc(start, Quoted(e.0), ": ");
    Text.Assoc(start + Quoted(e.0), ": ", ToJson(e.1));
    Text.Assoc(start, Quoted(e.0), ": " + ToJson(e.1));
  }
}
