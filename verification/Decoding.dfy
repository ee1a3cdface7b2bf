/** Greedy decoding under the adjudicator's sampler and grammar: one step, the
    description walk of an opinion read, a generation, and why a generation may
    resume from a described slot (`lfm2d/src/adjudicator.rs`,
    `lfm2d/src/constrain.rs`). */
module Decoding {
  import opened Wrappers
  import opened Schedule
  import Json
  import Text

  type Grammar = nat
  type Cursor = nat

  datatype Failure =
    BadRequest | NotFound | Unprocessable | Forbidden | InsufficientStorage | Internal | Cancelled | Deadline

  /** The model and its sampler as deterministic functions: `pick` is the greedy
      choice from the logits (known by the state they came out of), the history's
      tokens and the grammar position; `accept` walks the grammar by one token;
      `usable` says which vocabulary rows are tokens; `longest` is the longest text
      any token decodes to. */
  datatype Model = Model(
    tok: Tokenizer,
    alnum: char -> bool,
    pick: (State, set<Token>, Option<(Grammar, Cursor)>) -> Token,
    start: Grammar -> Cursor,
    accept: (Grammar, Cursor, Token) -> Option<Cursor>,
    usable: Token -> bool,
    contextLimit: nat,
    longest: nat)

  // ---- The decoder -----------------------------------------------------------

  /** `constrain::Decoder`: the penalty's history and, under a schema, the grammar
      position. */
  datatype Decoder = Decoder(seen: set<Token>, position: Option<(Grammar, Cursor)>)

  function TokensOf(ids: Ids): set<Token> {
    set t | t in ids
  }

  /** `Decoder::new`. */
  function NewDecoder(m: Model, grammar: Option<Grammar>, history: Ids): Decoder {
    Decoder(TokensOf(history), match grammar case None => None case Some(g) => Some((g, m.start(g))))
  }

  /** The grammar position after tokens already generated; `None` where the
      grammar cannot continue. */
  function Walk(m: Model, g: Grammar, from: Cursor, tokens: Ids): Option<Cursor>
    decreases |tokens|
  {
    if tokens == [] then Some(from)
    else match m.accept(g, from, tokens[0])
      case None => None
      case Some(next) => Walk(m, g, next, tokens[1..])
  }

  /** `Decoder::advance`: the masker walks the tokens, the history already has them. */
  function Advance(m: Model, d: Decoder, tokens: Ids): Result<Decoder, Failure> {
    match d.position
    case None => Success(d)
    case Some((g, at)) =>
      match Walk(m, g, at, tokens)
      case None => Failure(Internal)
      case Some(next) => Success(Decoder(d.seen, Some((g, next))))
  }

  /** `Decoder::sample`: select under the mask, then record the token. */
  function Sample(m: Model, d: Decoder, logits: State): Result<(Token, Decoder), Failure> {
    var t := m.pick(logits, d.seen, d.position);
    match d.position
    case None => Success((t, Decoder(d.seen + {t}, None)))
    case Some((g, at)) =>
      match m.accept(g, at, t)
      case None => Failure(Internal)
      case Some(next) => Success((t, Decoder(d.seen + {t}, Some((g, next)))))
  }

  // ---- One greedy step ---------------------------------------------------------

  /** Where a decode loop stands: the state, the logits it last got, the decoder
      and what it generated. */
  datatype Config = Config(state: State, logits: State, decoder: Decoder, generated: Ids)

  datatype Move = Broken(error: Failure) | Ended | Went(next: Config)

  function Begin(m: Model, grammar: Option<Grammar>, ids: Ids, state: State): Config {
    Config(state, state, NewDecoder(m, grammar, ids), [])
  }

  function Forward(c: Config, t: Token, d: Decoder): Config {
    var state := c.state + [[t]];
    Config(state, state, d, c.generated + [t])
  }

  /** Sample, refuse an unused vocabulary row, stop at EOS, forward anything else. */
  function Next(m: Model, c: Config): Move {
    match Sample(m, c.decoder, c.logits)
    case Failure(e) => Broken(e)
    case Success((t, d)) =>
      if !m.usable(t) then Broken(Internal)
      else if t == EOS then Ended
      else Went(Forward(c, t, d))
  }

  /** `k` steps that all went on. */
  function Steps(m: Model, c: Config, k: nat): Option<Config>
    decreases k
  {
    if k == 0 then Some(c)
    else match Next(m, c)
      case Went(next) => Steps(m, next, k - 1)
      case _ => None
  }

  lemma {:induction false} StepsSplit(m: Model, c: Config, a: nat, b: nat)
    ensures Steps(m, c, a + b) == match Steps(m, c, a)
      case None => None
      case Some(d) => Steps(m, d, b)
    decreases a
  {
    if a > 0 && Next(m, c).Went? {
      StepsSplit(m, Next(m, c).next, a - 1, b);
    }
  }

  lemma {:induction false} StepsSnoc(m: Model, c: Config, k: nat, d: Config)
    requires Steps(m, c, k) == Some(d)
    ensures Steps(m, c, k + 1) == match Next(m, d) case Went(e) => Some(e) case _ => None
  {
    StepsSplit(m, c, k, 1);
    if Next(m, d).Went? {
      assert Steps(m, Next(m, d).next, 0) == Some(Next(m, d).next);
    }
  }

  /** What is generated only grows. */
  lemma {:induction false} StepsGrow(m: Model, c: Config, k: nat, d: Config)
    requires Steps(m, c, k) == Some(d)
    ensures |d.generated| == |c.generated| + k && c.generated <= d.generated
    decreases k
  {
    if k > 0 {
      StepsGrow(m, Next(m, c).next, k - 1, d);
    }
  }

  // ---- Generation --------------------------------------------------------------

  /** What a generation of at most `n` more tokens ends with, and whether it
      stopped itself. The last token is never forwarded when nothing follows. */
  function Generated(m: Model, c: Config, n: nat): Result<(Ids, bool), Failure>
    decreases n
  {
    if n == 0 then Success((c.generated, false))
    else match Next(m, c)
      case Broken(e) => Failure(e)
      case Ended => Success((c.generated + [EOS], true))
      case Went(next) => Generated(m, next, n - 1)
  }

  lemma {:induction false} GeneratedAfter(m: Model, c: Config, k: nat, d: Config, n: nat)
    requires Steps(m, c, k) == Some(d) && k <= n
    ensures Generated(m, c, n) == Generated(m, d, n - k)
    decreases k
  {
    if k > 0 {
      GeneratedAfter(m, Next(m, c).next, k - 1, d, n - 1);
    }
  }

  /** The greedy run from `c` comes to an end after `k` steps, in this way. */
  ghost predicate EndsAfter(m: Model, c: Config, k: nat, move: Move) {
    Steps(m, c, k).Some? && Next(m, Steps(m, c, k).value) == move
  }

  /** Steps of a run from its second configuration on. */
  lemma {:induction false} EndsLater(m: Model, c: Config, next: Config, n: nat, move: Move)
    requires Next(m, c) == Went(next) && !move.Went?
    ensures (exists k :: 0 <= k < n + 1 && EndsAfter(m, c, k, move))
      <==> exists k :: 0 <= k < n && EndsAfter(m, next, k, move)
  {
    if k :| 0 <= k < n + 1 && EndsAfter(m, c, k, move) {
      assert k > 0 && EndsAfter(m, next, k - 1, move);
    }
    if k :| 0 <= k < n && EndsAfter(m, next, k, move) {
      assert EndsAfter(m, c, k + 1, move);
    }
  }

  /** A generation not ended by the model is as many steps of the run as asked. */
  lemma {:induction false} GeneratedInFull(m: Model, c: Config, n: nat, tokens: Ids)
    ensures Generated(m, c, n) == Success((tokens, false))
      <==> Steps(m, c, n).Some? && tokens == Steps(m, c, n).value.generated
    decreases n
  {
    if n > 0 && Next(m, c).Went? {
      GeneratedInFull(m, Next(m, c).next, n - 1, tokens);
    }
  }

  /** One the model ended is the steps before that and the EOS, and the end came
      before as many steps as asked. */
  lemma {:induction false} GeneratedToEnd(m: Model, c: Config, n: nat, tokens: Ids)
    ensures Generated(m, c, n) == Success((tokens, true))
      <==> exists k :: 0 <= k < n && EndsAfter(m, c, k, Ended) && tokens == Steps(m, c, k).value.generated + [EOS]
    decreases n
  {
    if n > 0 {
      match Next(m, c)
      case Went(next) =>
        GeneratedToEnd(m, next, n - 1, tokens);
        if k :| 0 <= k < n && EndsAfter(m, c, k, Ended) && tokens == Steps(m, c, k).value.generated + [EOS] {
          assert k > 0 && EndsAfter(m, next, k - 1, Ended);
        }
        if k :| 0 <= k < n - 1 && EndsAfter(m, next, k, Ended)
                && tokens == Steps(m, next, k).value.generated + [EOS] {
          assert EndsAfter(m, c, k + 1, Ended);
        }
      case _ =>
        assert EndsAfter(m, c, 0, Next(m, c));
    }
  }

  /** It fails exactly as a step among those asked for fails. */
  lemma {:induction false} GeneratedBreaks(m: Model, c: Config, n: nat, e: Failure)
    ensures Generated(m, c, n) == Failure(e) <==> exists k :: 0 <= k < n && EndsAfter(m, c, k, Broken(e))
    decreases n
  {
    if n > 0 {
      match Next(m, c)
      case Went(next) =>
        GeneratedBreaks(m, next, n - 1, e);
        EndsLater(m, c, next, n - 1, Broken(e));
      case _ =>
        assert EndsAfter(m, c, 0, Next(m, c));
    }
  }

  /** These tokens are what the greedy run from `c` writes within `n` steps: all of
      them steps that went on, but for an EOS where the model ended itself; not
      ended, they are as many as asked. */
  ghost predicate Writes(m: Model, c: Config, n: nat, tokens: Ids, stopped: bool) {
    if stopped then
      0 < |tokens| <= n && tokens[|tokens| - 1] == EOS && EndsAfter(m, c, |tokens| - 1, Ended)
      && Steps(m, c, |tokens| - 1).value.generated == tokens[..|tokens| - 1]
    else
      |tokens| == n && Steps(m, c, n).Some? && Steps(m, c, n).value.generated == tokens
  }

  /** A generation is exactly what the run writes. */
  lemma {:induction false} GeneratedIsWritten(m: Model, c: Config, n: nat, tokens: Ids, stopped: bool)
    requires c.generated == []
    ensures Generated(m, c, n) == Success((tokens, stopped)) <==> Writes(m, c, n, tokens, stopped)
  {
    hide Generated, Steps;
    if stopped {
      GeneratedToEnd(m, c, n, tokens);
      if k :| 0 <= k < n && EndsAfter(m, c, k, Ended) && tokens == Steps(m, c, k).value.generated + [EOS] {
        StepsGrow(m, c, k, Steps(m, c, k).value);
        assert tokens[..k] == Steps(m, c, k).value.generated && |tokens| == k + 1;
      }
      if Writes(m, c, n, tokens, true) {
        assert tokens == tokens[..|tokens| - 1] + [EOS];
      }
    } else {
      GeneratedInFull(m, c, n, tokens);
      if Steps(m, c, n).Some? {
        StepsGrow(m, c, n, Steps(m, c, n).value);
      }
    }
  }

  // ---- A configuration is a function of its path and its tokens -----------------------

  lemma {:induction false} WalkSnoc(m: Model, g: Grammar, from: Cursor, tokens: Ids, t: Token)
    ensures Walk(m, g, from, tokens + [t]) == match Walk(m, g, from, tokens)
      case None => None
      case Some(at) => m.accept(g, at, t)
    decreases |tokens|
  {
    if tokens == [] {
      assert ([] + [t])[1..] == [];
    } else {
      assert (tokens + [t])[1..] == tokens[1..] + [t];
      if m.accept(g, from, tokens[0]).Some? {
        WalkSnoc(m, g, m.accept(g, from, tokens[0]).value, tokens[1..], t);
      }
    }
  }

  /** Rebuilding a configuration from the prompt, its path and the tokens already
      generated: the sampler over the whole history, the grammar advanced. */
  function Rebuilt(m: Model, grammar: Option<Grammar>, ids: Ids, generated: Ids, state: State, logits: State)
      : Result<Config, Failure> {
    match Advance(m, NewDecoder(m, grammar, ids + generated), generated)
    case Failure(e) => Failure(e)
    case Success(d) => Success(Config(state, logits, d, generated))
  }

  /** A configuration a greedy run reached is the one rebuilt from its tokens. */
  ghost predicate Tracks(m: Model, grammar: Option<Grammar>, ids: Ids, path: State, c: Config) {
    c.state == path + Singles(c.generated) && c.logits == c.state && EOS !in c.generated
    && Rebuilt(m, grammar, ids, c.generated, c.state, c.logits) == Success(c)
  }

  lemma {:induction false} BeginTracks(m: Model, grammar: Option<Grammar>, ids: Ids, path: State)
    ensures Tracks(m, grammar, ids, path, Begin(m, grammar, ids, path))
  {
    assert ids + [] == ids && path + [] == path;
  }

  lemma {:induction false} NextTracks(m: Model, grammar: Option<Grammar>, ids: Ids, path: State, c: Config)
    requires Tracks(m, grammar, ids, path, c) && Next(m, c).Went?
    ensures Tracks(m, grammar, ids, path, Next(m, c).next)
  {
    var next := Next(m, c).next;
    var t := next.generated[|c.generated|];
    SinglesSnoc(c.generated, t);
    Text.Assoc(path, Singles(c.generated), [[t]]);
    Text.Assoc(ids, c.generated, [t]);
    assert TokensOf(ids + next.generated) == TokensOf(ids + c.generated) + {t};
    if grammar.Some? {
      WalkSnoc(m, grammar.value, m.start(grammar.value), c.generated, t);
    }
  }

  lemma {:induction false} StepsTrack(m: Model, grammar: Option<Grammar>, ids: Ids, path: State, c: Config, k: nat)
    requires Tracks(m, grammar, ids, path, c) && Steps(m, c, k).Some?
    ensures Tracks(m, grammar, ids, path, Steps(m, c, k).value)
    decreases k
  {
    if k > 0 {
      NextTracks(m, grammar, ids, path, c);
      StepsTrack(m, grammar, ids, path, Next(m, c).next, k - 1);
    }
  }

  // ---- Slots ---------------------------------------------------------------------

  /** A question's slot: the quoted key, what separates it from the value, and
      the quote that opens it. */
  function SlotText(field: string): string {
    Json.Quoted(field) + ": \""
  }

  predicate AtSlot(m: Model, field: string, generated: Ids) {
    Text.EndsWith(Decode(m.tok, generated), SlotText(field))
  }

  /** The last token wrote past the slot: its text ends inside what this token
      wrote, and more follows it. */
  predicate WrotePast(m: Model, field: string, before: Ids, generated: Ids) {
    var text, slot := Decode(m.tok, generated), SlotText(field);
    match Text.FindLast(text, slot)
    case None => false
    case Some(at) => |Decode(m.tok, before)| < at + |slot| < |text|
  }

  /** A field's slot is where a JSON object of that one field has its string's
      characters to come. */
  lemma {:induction false} SlotOpensValue(field: string, value: string)
    ensures Json.ReadJson("{" + SlotText(field) + Json.Escaped(value) + "\"}")
      == Some(Json.Map([(field, Json.Str(value))]))
  {
    var v := Json.Map([(field, Json.Str(value))]);
    Json.JsonRoundTrip(v);
    OneEntryText(field, value);
    assert ": " + "\"" == ": \"" && "\"" + "}" == "\"}";
    Opened("{", Json.Quoted(field), ": ", "\"", Json.Escaped(value), "}");
  }

  lemma {:induction false} Opened(open: string, key: string, sep: string, quote: string, text: string, close: string)
    ensures open + (key + (sep + (quote + text + quote))) + close
      == open + (key + (sep + quote)) + text + (quote + close)
  {
    Text.Assoc(quote, text, quote);
    Text.Assoc(sep, quote, text + quote);
    Text.Assoc(key, sep + quote, text + quote);
    Text.Assoc(open, key + (sep + quote), text + quote);
    Text.Assoc(open + (key + (sep + quote)), text, quote);
    Text.Assoc(open + (key + (sep + quote)) + text, quote, close);
  }

  lemma {:induction false} OneEntryText(field: string, value: string)
    ensures Json.ToJson(Json.Map([(field, Json.Str(value))]))
      == "{" + (Json.Quoted(field) + (": " + Json.Quoted(value))) + "}"
  {
    var entries := [(field, Json.Str(value))];
    assert Json.ToJson(Json.Str(value)) == Json.Quoted(value);
    assert entries[1..] == [] && Json.Entries(entries[1..]) == [];
    assert Json.Entries(entries) == [Json.Entry(entries[0])];
    assert Text.Join(Json.Entries(entries), ", ") == Json.Entry(entries[0]);
    hide Json.Quoted, Text.Join, Json.Entries;
  }

  /** A description standing at a slot. */
  datatype Slot = Slot(generated: Ids, text: string, state: State, logits: State)

  /** The last occurrence of the slot ends inside what the last token wrote, with
      something of the answer after it. */
  lemma {:induction false} WritesPast(m: Model, field: string, before: Ids, generated: Ids)
    ensures WrotePast(m, field, before, generated)
      <==> exists at ::
             LastAt(Decode(m.tok, generated), at, SlotText(field))
             && |Decode(m.tok, before)| < at + |SlotText(field)| < |Decode(m.tok, generated)|
  {
    hide SlotText, Decode, LastAt;
    var text, slot := Decode(m.tok, generated), SlotText(field);
    if WrotePast(m, field, before, generated) {
      LastFound(text, slot, Text.FindLast(text, slot).value);
    } else if at :| LastAt(text, at, slot) && |Decode(m.tok, before)| < at + |slot| < |text| {
      LastFound(text, slot, at);
    }
  }

  lemma {:induction false} LastFound(text: string, p: string, at: int)
    ensures LastAt(text, at, p) <==> Text.FindLast(text, p).Some? && Text.FindLast(text, p).value == at
  {
    hide Text.At, Text.FindLast;
    var last := Text.FindLast(text, p);
    if LastAt(text, at, p) {
      assert last.Some? ==> Text.At(text, last.value, p);
    }
  }

  ghost predicate LastAt(text: string, at: int, p: string) {
    Text.At(text, at, p) && forall i :: at < i ==> !Text.At(text, i, p)
  }

  function SlotOf(m: Model, c: Config): Slot {
    Slot(c.generated, Decode(m.tok, c.generated), c.state, c.logits)
  }

  /** The grammar's fields come in order: a text at a later field's slot has
      passed every earlier one's. `constrain.rs` fixes the key order. */
  ghost predicate EmissionOrdered(m: Model, g: Grammar, fields: seq<string>) {
    forall i, j, ids: Ids, n | 0 <= i < j < |fields| && 0 <= n <= |ids| && Walk(m, g, m.start(g), ids).Some? ::
      AtSlot(m, fields[j], ids[..n]) ==> !AtSlot(m, fields[i], ids)
  }

  /** `generated` is where the greedy run from `c` first stands at the slot. */
  ghost predicate FirstSlot(m: Model, c: Config, field: string, d: Config) {
    |d.generated| > 0 && Steps(m, c, |d.generated|) == Some(d) && AtSlot(m, field, d.generated)
    && forall k :: 0 < k < |d.generated| ==> !AtSlot(m, field, d.generated[..k])
  }

  /** Two first slots of one run are one: the run is deterministic and what it
      generates only grows. */
  lemma {:induction false} FirstSlotUnique(m: Model, c: Config, field: string, d: Config, e: Config)
    requires c.generated == [] && FirstSlot(m, c, field, d) && FirstSlot(m, c, field, e)
    ensures d == e
  {
    if |d.generated| < |e.generated| {
      EarlierPrefix(m, c, d, e);
    } else if |e.generated| < |d.generated| {
      EarlierPrefix(m, c, e, d);
    }
  }

  lemma {:induction false} EarlierPrefix(m: Model, c: Config, d: Config, e: Config)
    requires Steps(m, c, |d.generated|) == Some(d) && Steps(m, c, |e.generated|) == Some(e)
    requires |d.generated| <= |e.generated|
    ensures e.generated[..|d.generated|] == d.generated
  {
    StepsSplit(m, c, |d.generated|, |e.generated| - |d.generated|);
    StepsGrow(m, d, |e.generated| - |d.generated|, e);
  }

  /** The description walk: from `c`, through each question's slot in turn,
      within `budget` tokens. */
  function Describe(m: Model, c: Config, fields: seq<string>, budget: nat): Result<seq<Slot>, Failure>
    requires fields != []
    decreases budget
  {
    if budget == 0 then Failure(Unprocessable)
    else match Next(m, c)
      case Broken(e) => Failure(e)
      case Ended => Failure(Internal)
      case Went(next) =>
        if AtSlot(m, fields[0], next.generated) then
          if |fields| == 1 then Success([SlotOf(m, next)])
          else match Describe(m, next, fields[1..], budget - 1)
            case Failure(e) => Failure(e)
            case Success(more) => Success([SlotOf(m, next)] + more)
        else if WrotePast(m, fields[0], c.generated, next.generated) then Failure(Internal)
        else Describe(m, next, fields, budget - 1)
  }

  /** Step `j` of the run neither comes to the field's slot nor writes past it. */
  ghost predicate Between(m: Model, c: Config, field: string, j: nat) {
    j > 0 && Steps(m, c, j - 1).Some? && Steps(m, c, j).Some?
    && !AtSlot(m, field, Steps(m, c, j).value.generated)
    && !WrotePast(m, field, Steps(m, c, j - 1).value.generated, Steps(m, c, j).value.generated)
  }

  /** The run from `c` comes to the field's slot after `k` steps, and neither met it
      nor wrote past it before. */
  ghost predicate FirstMet(m: Model, c: Config, field: string, k: nat) {
    k > 0 && Steps(m, c, k).Some? && AtSlot(m, field, Steps(m, c, k).value.generated)
    && forall j :: 0 < j < k ==> Between(m, c, field, j)
  }

  /** Each field's slot is met after so many steps from the one before. */
  ghost predicate Meets(m: Model, c: Config, fields: seq<string>, steps: seq<nat>)
    decreases |fields|
  {
    |steps| == |fields|
    && (fields != [] ==>
          FirstMet(m, c, fields[0], steps[0]) && Meets(m, Steps(m, c, steps[0]).value, fields[1..], steps[1..]))
  }

  ghost function SlotsMet(m: Model, c: Config, fields: seq<string>, steps: seq<nat>): seq<Slot>
    requires Meets(m, c, fields, steps)
    decreases |fields|
  {
    if fields == [] then []
    else
      var d := Steps(m, c, steps[0]).value;
      [SlotOf(m, d)] + SlotsMet(m, d, fields[1..], steps[1..])
  }

  function Sum(steps: seq<nat>): nat {
    if steps == [] then 0 else steps[0] + Sum(steps[1..])
  }

  lemma {:induction false} OneStep(m: Model, c: Config, next: Config, j: nat)
    requires Next(m, c) == Went(next)
    ensures Steps(m, c, 0) == Some(c) && Steps(m, c, 1) == Some(next) && Steps(m, c, j + 1) == Steps(m, next, j)
  {
    assert Steps(m, next, 0) == Some(next);
  }

  lemma {:induction false} BetweenLater(m: Model, c: Config, next: Config, field: string, j: nat)
    requires Next(m, c) == Went(next) && j > 0
    ensures Between(m, c, field, j + 1) <==> Between(m, next, field, j)
  {
    OneStep(m, c, next, j);
    OneStep(m, c, next, j - 1);
    hide Steps, AtSlot, WrotePast;
  }

  /** The slot is met one step sooner from one step on. */
  lemma {:induction false} FirstMetLater(m: Model, c: Config, next: Config, field: string, k: nat)
    requires Next(m, c) == Went(next) && k > 0
    requires !AtSlot(m, field, next.generated) && !WrotePast(m, field, c.generated, next.generated)
    ensures FirstMet(m, next, field, k) <==> FirstMet(m, c, field, k + 1)
  {
    OneStep(m, c, next, k);
    assert Between(m, c, field, 1) by {
      OneStep(m, c, next, 0);
    }
    hide Steps, AtSlot, WrotePast, Between;
    forall j | 0 < j < k
      ensures Between(m, c, field, j + 1) <==> Between(m, next, field, j)
    {
      BetweenLater(m, c, next, field, j);
    }
    if FirstMet(m, next, field, k) {
      forall j | 0 < j < k + 1
        ensures Between(m, c, field, j)
      {
        if j > 1 {
          BetweenLater(m, c, next, field, j - 1);
        }
      }
    }
  }

  /** The first slot is not met yet: the same steps from one step on, one fewer. */
  lemma {:induction false} MeetsSooner(
      m: Model, c: Config, next: Config, fields: seq<string>, steps: seq<nat>, sooner: seq<nat>)
    requires Next(m, c) == Went(next) && fields != [] && |steps| == |fields| && steps[0] > 1
    requires !AtSlot(m, fields[0], next.generated) && !WrotePast(m, fields[0], c.generated, next.generated)
    requires sooner == [steps[0] - 1] + steps[1..]
    ensures Meets(m, next, fields, sooner) <==> Meets(m, c, fields, steps)
    ensures Meets(m, c, fields, steps) ==> SlotsMet(m, c, fields, steps) == SlotsMet(m, next, fields, sooner)
    ensures Sum(steps) == Sum(sooner) + 1
  {
    assert sooner[1..] == steps[1..];
    FirstMetLater(m, c, next, fields[0], steps[0] - 1);
    OneStep(m, c, next, steps[0] - 1);
    hide Steps, AtSlot, WrotePast, FirstMet, SlotOf;
  }

  /** The first slot is met now: the rest from here. */
  lemma {:induction false} MeetsNow(
      m: Model, c: Config, next: Config, fields: seq<string>, steps: seq<nat>, more: seq<nat>)
    requires Next(m, c) == Went(next) && fields != [] && AtSlot(m, fields[0], next.generated) && steps == [1] + more
    ensures Meets(m, next, fields[1..], more) <==> Meets(m, c, fields, steps)
    ensures Meets(m, c, fields, steps) ==>
      SlotsMet(m, c, fields, steps) == [SlotOf(m, next)] + SlotsMet(m, next, fields[1..], more)
    ensures Sum(steps) == Sum(more) + 1
  {
    assert steps[1..] == more;
    OneStep(m, c, next, 0);
    hide Steps, AtSlot, WrotePast, SlotOf;
  }

  /** At its first step a run that meets its slots meets the first one or goes on
      before it. */
  lemma {:induction false} MeetsFirst(m: Model, c: Config, fields: seq<string>, steps: seq<nat>)
    requires fields != [] && Meets(m, c, fields, steps)
    ensures |steps| == |fields| && Next(m, c).Went? && steps[0] > 0 && Sum(steps) > 0
    ensures var next := Next(m, c).next;
      if steps[0] == 1 then AtSlot(m, fields[0], next.generated)
      else !AtSlot(m, fields[0], next.generated) && !WrotePast(m, fields[0], c.generated, next.generated)
  {
    assert FirstMet(m, c, fields[0], steps[0]);
    OneStep(m, c, Next(m, c).next, 0);
    assert steps[0] > 1 ==> Between(m, c, fields[0], 1);
    hide AtSlot, WrotePast, SlotOf;
  }

  /** A description succeeds when the run meets every slot in turn within the
      budget, and then with those slots. */
  lemma {:induction false} DescribesWhatItMeets(m: Model, c: Config, fields: seq<string>, steps: seq<nat>, budget: nat)
    requires fields != [] && Meets(m, c, fields, steps) && Sum(steps) <= budget
    ensures Describe(m, c, fields, budget) == Success(SlotsMet(m, c, fields, steps))
    decreases budget
  {
    hide Meets, SlotsMet, AtSlot, WrotePast, SlotOf, Sum, Next, Steps, FirstMet, Between;
    MeetsFirst(m, c, fields, steps);
    var next := Next(m, c).next;
    if steps[0] == 1 {
      assert steps == [1] + steps[1..];
      MeetsNow(m, c, next, fields, steps, steps[1..]);
      if |fields| > 1 {
        DescribesWhatItMeets(m, next, fields[1..], steps[1..], budget - 1);
      } else {
        MetNone(m, next, fields[1..], steps[1..]);
        assert [SlotOf(m, next)] + [] == [SlotOf(m, next)];
      }
    } else {
      var sooner := [steps[0] - 1] + steps[1..];
      MeetsSooner(m, c, next, fields, steps, sooner);
      DescribesWhatItMeets(m, next, fields, sooner, budget - 1);
    }
  }

  lemma {:induction false} MetNone(m: Model, c: Config, fields: seq<string>, steps: seq<nat>)
    requires fields == [] && Meets(m, c, fields, steps)
    ensures SlotsMet(m, c, fields, steps) == []
  {
  }

  /** And only then. Else the run broke, ended, wrote past a slot or went on for the
      whole budget, and that last is what "unprocessable" says. */
  lemma {:induction false} DescribedWasMet(m: Model, c: Config, fields: seq<string>, budget: nat)
      returns (steps: seq<nat>)
    requires fields != []
    ensures Describe(m, c, fields, budget).Success? ==>
      Meets(m, c, fields, steps) && Sum(steps) <= budget
      && Describe(m, c, fields, budget).value == SlotsMet(m, c, fields, steps)
    decreases budget
  {
    hide Meets, SlotsMet, AtSlot, WrotePast, SlotOf, Sum, Next;
    steps := [];
    if Describe(m, c, fields, budget).Success? {
      var next := Next(m, c).next;
      if AtSlot(m, fields[0], next.generated) {
        var more: seq<nat> := [];
        if |fields| == 1 {
          NoneToMeet(m, next, fields[1..]);
          assert [SlotOf(m, next)] + [] == [SlotOf(m, next)];
        } else {
          more := DescribedWasMet(m, next, fields[1..], budget - 1);
        }
        steps := [1] + more;
        MeetsNow(m, c, next, fields, steps, more);
      } else {
        var sooner := DescribedWasMet(m, next, fields, budget - 1);
        MeetsFirst(m, next, fields, sooner);
        steps := [sooner[0] + 1] + sooner[1..];
        assert sooner == [steps[0] - 1] + steps[1..];
        MeetsSooner(m, c, next, fields, steps, sooner);
      }
    }
  }

  lemma {:induction false} NoneToMeet(m: Model, c: Config, fields: seq<string>)
    requires fields == []
    ensures Meets(m, c, fields, []) && SlotsMet(m, c, fields, []) == [] && Sum([]) == 0
  {
  }

  /** A description is unprocessable only when the run went on for its whole
      budget; anything else that ends it is internal. */
  lemma {:induction false} RanOut(m: Model, c: Config, fields: seq<string>, budget: nat)
    requires fields != []
    ensures Describe(m, c, fields, budget) == Failure(Unprocessable) ==> Steps(m, c, budget).Some?
    ensures Describe(m, c, fields, budget).Failure? ==>
      Describe(m, c, fields, budget).error == Unprocessable || Describe(m, c, fields, budget).error == Internal
    decreases budget
  {
    hide AtSlot, WrotePast, SlotOf;
    if budget > 0 && Next(m, c).Went? {
      RanOut(m, Next(m, c).next, fields, budget - 1);
      if |fields| > 1 {
        RanOut(m, Next(m, c).next, fields[1..], budget - 1);
      }
    }
  }

  // ---- What a description finds --------------------------------------------------------

  /** A slot the greedy run from `c` first stands at. */
  ghost predicate IsFirst(m: Model, c: Config, field: string, s: Slot) {
    match Steps(m, c, |s.generated|)
    case None => false
    case Some(d) => FirstSlot(m, c, field, d) && s == SlotOf(m, d)
  }

  ghost predicate AllFirst(m: Model, c: Config, fields: seq<string>, slots: seq<Slot>) {
    |slots| == |fields| && forall j :: 0 <= j < |slots| ==> IsFirst(m, c, fields[j], slots[j])
  }

  /** Where a run from `c` stands: `k` steps on, at no slot of `field` so far. */
  ghost predicate Walking(m: Model, c: Config, field: string, k: nat, d: Config) {
    Steps(m, c, k) == Some(d) && |d.generated| == k && forall n :: 0 < n <= k ==> !AtSlot(m, field, d.generated[..n])
  }

  lemma {:induction false} WalkingNext(m: Model, c: Config, field: string, k: nat, d: Config)
    requires c.generated == [] && Walking(m, c, field, k, d) && Next(m, d).Went?
    ensures var e := Next(m, d).next;
      if AtSlot(m, field, e.generated) then FirstSlot(m, c, field, e) && IsFirst(m, c, field, SlotOf(m, e))
      else Walking(m, c, field, k + 1, e)
  {
    var e := Next(m, d).next;
    StepsSnoc(m, c, k, d);
    assert |e.generated| == k + 1;
    assert forall n :: 0 < n <= k ==> e.generated[..n] == d.generated[..n];
    assert e.generated[..k + 1] == e.generated;
  }

  /** Standing at one field's slot, the walk has met no later field's. */
  lemma {:induction false} LaterNotMet(
      m: Model, g: Grammar, ids: Ids, path: State, fields: seq<string>, i: nat, d: Config)
    requires EmissionOrdered(m, g, fields) && i + 1 < |fields| && AtSlot(m, fields[i], d.generated)
    requires Tracks(m, Some(g), ids, path, d)
    ensures forall n :: 0 < n <= |d.generated| ==> !AtSlot(m, fields[i + 1], d.generated[..n])
  {
    assert Walk(m, g, m.start(g), d.generated).Some?;
  }

  /** One token of a description: at a slot it is the field's first, and the
      walk goes on looking for the next field's; between slots it looks on. */
  lemma {:induction false} WalkOn(
      m: Model, g: Grammar, ids: Ids, path: State, fields: seq<string>, k: nat, d: Config, next: Config)
    requires EmissionOrdered(m, g, fields) && fields != [] && Next(m, d) == Went(next)
    requires Walking(m, Begin(m, Some(g), ids, path), fields[0], k, d) && Tracks(m, Some(g), ids, path, d)
    ensures Tracks(m, Some(g), ids, path, next) && EmissionOrdered(m, g, fields[1..])
    ensures var c := Begin(m, Some(g), ids, path);
      if !AtSlot(m, fields[0], next.generated) then Walking(m, c, fields[0], k + 1, next)
      else IsFirst(m, c, fields[0], SlotOf(m, next)) && (|fields| > 1 ==> Walking(m, c, fields[1..][0], k + 1, next))
  {
    var c := Begin(m, Some(g), ids, path);
    WalkingNext(m, c, fields[0], k, d);
    NextTracks(m, Some(g), ids, path, d);
    if AtSlot(m, fields[0], next.generated) && |fields| > 1 {
      LaterNotMet(m, g, ids, path, fields, 0, next);
      StepsSnoc(m, c, k, d);
      assert |next.generated| == k + 1;
    }
    hide AtSlot, Tracks, IsFirst, FirstSlot;
  }

  /** The first step of a description that succeeds. */
  lemma {:induction false} DescribeStep(m: Model, d: Config, fields: seq<string>, budget: nat)
    requires fields != [] && Describe(m, d, fields, budget).Success?
    ensures budget > 0 && Next(m, d).Went?
    ensures var next, slots := Next(m, d).next, Describe(m, d, fields, budget).value;
      if !AtSlot(m, fields[0], next.generated) then Describe(m, next, fields, budget - 1) == Success(slots)
      else if |fields| == 1 then slots == [SlotOf(m, next)]
      else
        exists more :: Describe(m, next, fields[1..], budget - 1) == Success(more) && slots == [SlotOf(m, next)] + more
  {
    hide AtSlot, WrotePast;
  }

  /** Every slot a description finds is the first of its field along the run,
      whichever other fields were asked with it. */
  lemma {:induction false} DescribeFindsFirst(
      m: Model, g: Grammar, ids: Ids, path: State, fields: seq<string>, k: nat, d: Config, budget: nat)
    requires EmissionOrdered(m, g, fields) && fields != []
    requires Walking(m, Begin(m, Some(g), ids, path), fields[0], k, d) && Tracks(m, Some(g), ids, path, d)
    requires Describe(m, d, fields, budget).Success?
    ensures AllFirst(m, Begin(m, Some(g), ids, path), fields, Describe(m, d, fields, budget).value)
    decreases budget
  {
    hide *;
    DescribeStep(m, d, fields, budget);
    var c, next := Begin(m, Some(g), ids, path), Next(m, d).next;
    WalkOn(m, g, ids, path, fields, k, d, next);
    if !AtSlot(m, fields[0], next.generated) {
      DescribeFindsFirst(m, g, ids, path, fields, k + 1, next, budget - 1);
    } else if |fields| > 1 {
      DescribeFindsFirst(m, g, ids, path, fields[1..], k + 1, next, budget - 1);
      AllFirstCons(m, c, fields, SlotOf(m, next), Describe(m, next, fields[1..], budget - 1).value);
    } else {
      AllFirstOne(m, c, fields, SlotOf(m, next));
    }
  }

  lemma {:induction false} AllFirstOne(m: Model, c: Config, fields: seq<string>, s: Slot)
    requires |fields| == 1 && IsFirst(m, c, fields[0], s)
    ensures AllFirst(m, c, fields, [s])
  {
    hide IsFirst;
  }

  lemma {:induction false} AllFirstCons(m: Model, c: Config, fields: seq<string>, s: Slot, more: seq<Slot>)
    requires fields != [] && IsFirst(m, c, fields[0], s) && AllFirst(m, c, fields[1..], more)
    ensures AllFirst(m, c, fields, [s] + more)
  {
  }

  /** Along one run there is one answer: two lists of first slots agree. */
  lemma {:induction false} FirstSlotsAgree(m: Model, c: Config, fields: seq<string>, a: seq<Slot>, b: seq<Slot>)
    requires c.generated == [] && AllFirst(m, c, fields, a) && AllFirst(m, c, fields, b)
    ensures a == b
  {
    forall j | 0 <= j < |fields|
      ensures a[j] == b[j]
    {
      var d, e := Steps(m, c, |a[j].generated|).value, Steps(m, c, |b[j].generated|).value;
      FirstSlotUnique(m, c, fields[j], d, e);
    }
  }

  /** The path a slot was described along: its state before the generated tokens. */
  function PathOf(s: Slot): State {
    if |s.generated| <= |s.state| then s.state[..|s.state| - |s.generated|] else []
  }

  lemma {:induction false} FirstSlotPath(
      m: Model, grammar: Option<Grammar>, ids: Ids, path: State, field: string, s: Slot)
    requires IsFirst(m, Begin(m, grammar, ids, path), field, s)
    ensures PathOf(s) == path && s.logits == s.state
    ensures Rebuilt(m, grammar, ids, s.generated, s.state, s.logits).Success?
    ensures Steps(m, Begin(m, grammar, ids, path), |s.generated|)
         == Some(Rebuilt(m, grammar, ids, s.generated, s.state, s.logits).value)
  {
    BeginTracks(m, grammar, ids, path);
    StepsTrack(m, grammar, ids, path, Begin(m, grammar, ids, path), |s.generated|);
    SinglesLength(s.generated);
    Text.DropHead(path, Singles(s.generated));
    assert s.state[..|path|] == path;
  }

  lemma {:induction false} SinglesLength(ids: Ids)
    ensures |Singles(ids)| == |ids|
  {
    if ids != [] {
      SinglesLength(ids[1..]);
    }
  }

  /** A held description and a fresh one of the same prompt and field are the
      same slot exactly when they were described along the same blocks. */
  lemma {:induction false} HeldSlotIsFresh(
      m: Model, grammar: Option<Grammar>, ids: Ids, held: State, own: State, field: string, s: Slot, f: Slot)
    requires IsFirst(m, Begin(m, grammar, ids, held), field, s) && IsFirst(m, Begin(m, grammar, ids, own), field, f)
    ensures s == f <==> held == own
  {
    FirstSlotPath(m, grammar, ids, held, field, s);
    FirstSlotPath(m, grammar, ids, own, field, f);
    if held == own {
      var c := Begin(m, grammar, ids, held);
      FirstSlotUnique(m, c, field, Steps(m, c, |s.generated|).value, Steps(m, c, |f.generated|).value);
    }
  }

  /** A generation resumed at a held slot, with the sampler rebuilt over the
      history and the grammar advanced, writes exactly what a fresh one writes:
      the same tokens, the same end, the same failure. */
  lemma {:induction false} ResumedGeneration(
      m: Model, grammar: Option<Grammar>, ids: Ids, path: State, field: string, s: Slot, n: nat)
    requires IsFirst(m, Begin(m, grammar, ids, path), field, s) && |s.generated| <= n
    ensures Rebuilt(m, grammar, ids, s.generated, s.state, s.logits).Success?
    ensures Generated(m, Begin(m, grammar, ids, path), n)
         == Generated(m, Rebuilt(m, grammar, ids, s.generated, s.state, s.logits).value, n - |s.generated|)
  {
    FirstSlotPath(m, grammar, ids, path, field, s);
    var c := Begin(m, grammar, ids, path);
    GeneratedAfter(m, c, |s.generated|, Steps(m, c, |s.generated|).value, n);
  }

  /** The configuration a resume starts from is the one the fresh run stands at
      after as many tokens exactly when the slot was described along the fresh
      run's own blocks. */
  lemma {:induction false} ResumesWhereFreshStands(
      m: Model, grammar: Option<Grammar>, ids: Ids, held: State, own: State, field: string, s: Slot)
    requires IsFirst(m, Begin(m, grammar, ids, held), field, s)
    ensures Rebuilt(m, grammar, ids, s.generated, s.state, s.logits).Success?
    ensures held == own <==>
      Steps(m, Begin(m, grammar, ids, own), |s.generated|)
        == Some(Rebuilt(m, grammar, ids, s.generated, s.state, s.logits).value)
  {
    FirstSlotPath(m, grammar, ids, held, field, s);
    var c := Begin(m, grammar, ids, own);
    var r := Rebuilt(m, grammar, ids, s.generated, s.state, s.logits).value;
    if Steps(m, c, |s.generated|) == Some(r) {
      BeginTracks(m, grammar, ids, own);
      StepsTrack(m, grammar, ids, own, c, |s.generated|);
      SinglesLength(s.generated);
      Text.DropHead(own, Singles(s.generated));
      assert s.state[..|own|] == own;
    }
  }
}
