/** A tokenizer that keeps its contract: one token a character, `<|im_end|>` alone
    excepted. It shows the contract can be met, and with it two pairs of different
    computations of the same ids: a chat and a context, and a plain read and a
    tail read. */
module Witness {
  import opened Wrappers
  import opened Decoding
  import opened Schedule
  import opened Serving
  import opened Specs
  import opened Template
  import Json
  import Text

  const FIRST := 200000

  function Encode(t: string): Ids
    decreases |t|
  {
    if t == "" then []
    else if IM_END <= t then [EOS] + Encode(t[|IM_END|..])
    else [FIRST + t[0] as int] + Encode(t[1..])
  }

  function Piece(t: Token): string {
    if t == EOS then IM_END
    else if FIRST <= t < FIRST + 0xD800 || FIRST + 0xE000 <= t < FIRST + 0x110000 then [(t - FIRST) as char]
    else ""
  }

  const TOK: Tokenizer := Tokenizer(Encode, Piece)

  lemma {:induction false} DecodesBack(t: string)
    ensures Decode(TOK, Encode(t)) == t
    decreases |t|
  {
    if t != "" {
      var n := if IM_END <= t then |IM_END| else 1;
      DecodesBack(t[n..]);
      assert t == t[..n] + t[n..];
      var ids := Encode(t);
      assert ids[1..] == Encode(t[n..]) && TOK.piece(ids[0]) == t[..n];
    }
  }

  /** The characters of a text, token by token. */
  function Letters(t: string): Ids {
    if t == "" then [] else [FIRST + t[0] as int] + Letters(t[1..])
  }

  lemma {:induction false} LettersPlain(t: string)
    ensures |Letters(t)| == |t| && EOS !in Letters(t)
  {
    if t != "" {
      LettersPlain(t[1..]);
    }
  }

  /** Text free of `<|im_end|>`, then it, then any text: the letters, EOS, the rest. */
  lemma {:induction false} EncodeEnd(t: string, v: string, s: string)
    requires Text.Free(t, IM_END) && s == t + (IM_END + v)
    ensures Encode(s) == Letters(t) + ([EOS] + Encode(v))
    decreases |t|
  {
    hide Encode, Text.Free, Letters;
    if t == "" {
      EncodeTheEnd(v, s);
    } else {
      NoEarlyEnd(t, v, s);
      assert s[0] == t[0] && s[1..] == t[1..] + (IM_END + v);
      FreeTail(t);
      EncodeEnd(t[1..], v, s[1..]);
      OneLetter(t, s);
      Text.Assoc([FIRST + t[0] as int], Letters(t[1..]), [EOS] + Encode(v));
    }
  }

  lemma {:induction false} EncodeTheEnd(v: string, s: string)
    requires s == "" + (IM_END + v)
    ensures Encode(s) == Letters("") + ([EOS] + Encode(v))
  {
    var end := IM_END;
    NoLetters();
    EndFirst(end, v, s);
    hide Encode, Letters;
    assert [] + ([EOS] + Encode(v)) == [EOS] + Encode(v);
  }

  lemma {:induction false} EndFirst(end: string, v: string, s: string)
    requires end == IM_END && s == end + v
    ensures Encode(s) == [EOS] + Encode(v)
  {
    Text.DropHead(end, v);
    assert end <= s && s[|end|..] == v;
  }

  /** Text free of the turn end, then a turn end: its letters, EOS, the newline. */
  lemma {:induction false} EncodeTurn(t: string, s: string)
    requires Text.Free(t, IM_END) && s == t + TURN_END
    ensures Encode(s) == Letters(t) + [EOS] + Letters(AFTER_EOS)
  {
    assert TURN_END == IM_END + AFTER_EOS;
    EncodeEnd(t, AFTER_EOS, s);
    EncodeNewline();
    Text.Assoc(Letters(t), [EOS], Letters(AFTER_EOS));
    hide Encode, Letters;
  }

  lemma {:induction false} OneLetter(t: string, s: string)
    requires t != "" && s != "" && t[0] == s[0] && !(IM_END <= s)
    ensures Encode(s) == [FIRST + t[0] as int] + Encode(s[1..])
    ensures Letters(t) == [FIRST + t[0] as int] + Letters(t[1..])
  {
  }

  lemma {:induction false} NoLetters()
    ensures Letters("") == []
  {
  }

  lemma {:induction false} EncodeNewline()
    ensures Encode(AFTER_EOS) == Letters(AFTER_EOS) && |Letters(AFTER_EOS)| == 1
  {
    assert AFTER_EOS[1..] == "";
  }

  /** The turn end that closes a text is the first in it. */
  lemma {:induction false} NoEarlyEnd(t: string, v: string, s: string)
    requires Text.Free(t, IM_END) && t != "" && s == t + (IM_END + v)
    ensures !(IM_END <= s)
  {
    if |t| >= |IM_END| {
      assert s[..|IM_END|] == t[..|IM_END|];
      assert !Text.At(t, 0, IM_END);
    } else {
      assert s[|t|] == '<' && IM_END[|t|] != '<';
    }
  }

  lemma {:induction false} FreeTail(t: string)
    requires Text.Free(t, IM_END) && t != ""
    ensures Text.Free(t[1..], IM_END)
  {
    forall i
      ensures !Text.At(t[1..], i, IM_END)
    {
      if Text.At(t[1..], i, IM_END) {
        assert t[1..][i..i + |IM_END|] == t[i + 1..i + 1 + |IM_END|];
        assert Text.At(t, i + 1, IM_END);
      }
    }
  }

  /** Text with no `<` is its letters. */
  lemma {:induction false} EncodePlain(t: string)
    requires '<' !in t
    ensures Encode(t) == Letters(t)
    decreases |t|
  {
    if t != "" {
      EncodePlain(t[1..]);
    }
  }

  /** A control token that is no turn end is its letters too. */
  lemma {:induction false} EncodeStart(t: string)
    requires t != "" && (forall i :: 0 < i < |t| ==> t[i] != '<') && !(IM_END <= t)
    ensures Encode(t) == Letters(t) && |Encode(t)| == |t| && EOS !in Encode(t)
  {
    EncodePlain(t[1..]);
    LettersPlain(t);
  }

  lemma {:induction false} EncodeBos(t: string)
    requires t == BOS
    ensures EOS !in Encode(t)
  {
    assert t[2] == 's' && IM_END[2] == 'i';
    EncodeStart(t);
  }

  lemma {:induction false} EncodeOpening(t: string)
    requires t == GENERATION_PROMPT
    ensures |Encode(t)| == |t| && EOS !in Encode(t)
  {
    assert t[5] == 's' && IM_END[5] == 'e';
    EncodeStart(t);
  }

  lemma {:induction false} TurnCloses(tok: Tokenizer, t: string, ids: Ids)
    requires tok.encode(AFTER_EOS) == Letters(AFTER_EOS) && ids == Letters(t) + [EOS] + Letters(AFTER_EOS)
    ensures IsClosed(tok, ids)
  {
    EncodeNewline();
    LettersPlain(t);
    var n := |Letters(t)|;
    assert ids[|ids| - 1..] == Letters(AFTER_EOS) && ids[n] == EOS && ids[..n] == Letters(t);
  }

  /** The contract is kept. */
  lemma {:induction false} TokFaithful(tok: Tokenizer)
    requires tok == TOK
    ensures Faithful(tok)
  {
    hide Encode, Decode, Letters;
    forall t
      ensures Decode(tok, tok.encode(t)) == t
    {
      DecodesBack(t);
    }
    EncodeNewline();
    LettersPlain(AFTER_EOS);
    forall t | Text.Free(t, IM_END)
      ensures IsClosed(tok, tok.encode(t + TURN_END))
    {
      EncodeTurn(t, t + TURN_END);
      TurnCloses(tok, t, tok.encode(t + TURN_END));
    }
    EncodeBos(BOS);
    EncodeOpening(GENERATION_PROMPT);
  }

  // ---- Two computations of the same ids --------------------------------------------

  const ASKED := "<|im_start|>user\nhi<|im_end|>\n"
  const ANSWERED := "<|im_start|>assistant\nhi<|im_end|>\n"

  /** The ids of a chat of one question and one answer. */
  function Example(tok: Tokenizer): Ids {
    tok.encode(BOS) + (tok.encode(ASKED) + tok.encode(ANSWERED))
  }

  lemma {:induction false} PlainFree(s: string)
    requires '<' !in s
    ensures Text.Free(s, IM_END)
  {
    forall i
      ensures !Text.At(s, i, IM_END)
    {
      if 0 <= i && i + |IM_END| <= |s| {
        assert s[i..i + |IM_END|][0] == s[i];
      }
    }
  }

  /** A chat checkpoint and a held context may have the same ids and be different
      states: so a cache key made of the ids alone names two computations. */
  lemma {:induction false} ChatIsNotItsContext(tok: Tokenizer)
    requires tok == TOK
    ensures Faithful(tok) && IsTranscript(tok, Example(tok))
    ensures ChatState(tok, Example(tok)) != ContextState(tok, Example(tok))
  {
    hide ChatState, ContextState, IsTranscript, IsTurn, LaidAsReply, Faithful, Encode;
    TokFaithful(tok);
    var asked, answered := ASKED, ANSWERED;
    BothTurns(tok, asked, answered);
    TwoTurns(tok, tok.encode(asked), tok.encode(answered));
  }

  lemma {:induction false} BothTurns(tok: Tokenizer, asked: string, answered: string)
    requires tok == TOK && Faithful(tok) && asked == ASKED && answered == ANSWERED
    ensures IsTurn(tok, tok.encode(asked)) && IsTurn(tok, tok.encode(answered))
    ensures LaidAsReply(tok, tok.encode(answered))
  {
    BothFramed(asked, answered);
    hide *;
    FramedTurn(tok, "user", "hi", asked);
    FramedTurn(tok, "assistant", "hi", answered);
    AnswerLaid(tok, answered);
    ReplyLaid(tok, tok.encode(answered));
  }

  lemma {:induction false} BothFramed(asked: string, answered: string)
    requires asked == ASKED && answered == ANSWERED
    ensures asked == Framed("user", "hi") && answered == Framed("assistant", "hi")
  {
  }

  lemma {:induction false} FramedTurn(tok: Tokenizer, role: string, body: string, t: string)
    requires Faithful(tok) && role in {"user", "assistant"} && body == "hi" && t == Framed(role, body)
    ensures IsTurn(tok, tok.encode(t)) && (IsReply(tok, tok.encode(t)) <==> role == "assistant")
  {
    hide Faithful, IsTurn, IsReply;
    PlainFree(body);
    FramedIsTurn(tok, role, body, t);
  }

  lemma {:induction false} ReplyLaid(tok: Tokenizer, ids: Ids)
    requires IsReply(tok, ids) && |Opening(tok)| + |Newline(tok)| <= |ids|
    ensures LaidAsReply(tok, ids)
  {
  }

  lemma {:induction false} TwoTurns(tok: Tokenizer, asked: Ids, answered: Ids)
    requires Faithful(tok) && IsTurn(tok, asked) && IsTurn(tok, answered) && LaidAsReply(tok, answered)
    ensures var ids := tok.encode(BOS) + (asked + answered);
      IsTranscript(tok, ids) && ChatState(tok, ids) != ContextState(tok, ids)
  {
    hide Faithful, IsTurn, LaidAsReply, ChatState, ContextState;
    var turns: seq<Ids> := [asked, answered];
    var ids := tok.encode(BOS) + (asked + answered);
    assert Flatten(turns) == asked + answered by {
      assert turns[1..] == [answered];
      assert Flatten([answered]) == answered + [] == answered;
    }
    SegmentsOf(tok, tok.encode(BOS), turns, ids);
    assert ([tok.encode(BOS)] + turns)[2] == answered;
    ChatAndContextDiffer(tok, ids);
  }

  lemma {:induction false} AnswerLaid(tok: Tokenizer, s: string)
    requires tok == TOK && s == ANSWERED
    ensures |Opening(tok)| + |Newline(tok)| <= |tok.encode(s)|
  {
    hide Encode, Letters;
    var t: string := GENERATION_PROMPT + "hi";
    EncodeOpening(GENERATION_PROMPT);
    EncodeNewline();
    AnswerFree(t);
    assert s == t + TURN_END;
    EncodeTurn(t, s);
    LettersPlain(t);
  }

  lemma {:induction false} AnswerFree(t: string)
    requires t == GENERATION_PROMPT + "hi"
    ensures Text.Free(t, IM_END)
  {
    forall i
      ensures !Text.At(t, i, IM_END)
    {
      if 0 <= i && i + |IM_END| <= |t| {
        assert t[i..i + |IM_END|][0] == t[i] && t[i..i + |IM_END|][5] == t[i + 5];
      }
    }
  }

  // ---- Two paths to the same prompt ---------------------------------------------------

  /** Text with no `<` before any text is its letters before that text's ids. */
  lemma {:induction false} PlainThen(a: string, b: string, s: string)
    requires '<' !in a && s == a + b
    ensures Encode(s) == Letters(a) + Encode(b)
    decreases |a|
  {
    if a == "" {
      assert s == b;
    } else {
      assert s[1..] == a[1..] + b && s[0] == a[0];
      PlainThen(a[1..], b, s[1..]);
      OneLetter(a, s);
      Text.Assoc([FIRST + a[0] as int], Letters(a[1..]), Encode(b));
    }
  }

  /** Text that starts with another control token, likewise. */
  lemma {:induction false} StartThen(a: string, b: string, s: string)
    requires a != "" && '<' !in a[1..] && s == a + b && !(IM_END <= s)
    ensures Encode(s) == Letters(a) + Encode(b)
  {
    assert s[1..] == a[1..] + b && s[0] == a[0];
    PlainThen(a[1..], b, s[1..]);
    OneLetter(a, s);
    Text.Assoc([FIRST + a[0] as int], Letters(a[1..]), Encode(b));
  }

  lemma {:induction false} EncodeAtMost(t: string)
    ensures |Encode(t)| <= |t|
    decreases |t|
  {
    if t != "" {
      EncodeAtMost(t[if IM_END <= t then |IM_END| else 1..]);
    }
  }

  const USER := "<|im_start|>user\n"
  const REPLY := "<|im_end|>\n<|im_start|>assistant\n"

  /** What loading a spec of one field gives, its prefix one system turn around
      `block` and its grammar writing a JSON object of that field. */
  predicate OneField(m: Model, s: LoadedSpec, block: string, field: string, g: Grammar) {
    '<' !in block && s.prefixText == SYSTEM_HEAD + (block + TURN_END)
    && s.prefixIds == m.tok.encode(s.prefixText) && s.prefix == Chunked(s.prefixIds, CHUNK)
    && !s.tools && s.grammar == Some(g) && s.fields == [field]
  }

  /** `OpinionState::render`. */
  function Rendered(facts: string, inputLabel: string, text: string): string {
    facts + inputLabel + ":\n" + text
  }

  /** A read of the field in the spec's own prompt, the facts being the spec's block,
      and one after the held context of the spec's own system turn. */
  predicate TwoReads(
      s: LoadedSpec, block: string, field: string, inputLabel: string, text: string, plain: Read, tail: Read) {
    plain == Read(s.id, [Question(field, 0)], Rendered(block + "\n\n", inputLabel, text), None, true)
    && tail == Read(s.id, [Question(field, 0)], Rendered("", inputLabel, text), Some(ContextId(s.prefixIds)), true)
  }

  predicate OnlySystem(m: Model, s: LoadedSpec, held: Held) {
    held == map[ContextId(s.prefixIds) := Canonical(m, ContextId(s.prefixIds))]
  }

  lemma {:induction false} SameInput(block: string, inputLabel: string, text: string)
    ensures Rendered(block + "\n\n", inputLabel, text) == block + "\n\n" + Rendered("", inputLabel, text)
  {
  }

  /** The prefix is its inside and a turn end, so what follows it is encoded apart. */
  lemma {:induction false} PrefixApart(tok: Tokenizer, inside: string, prefix: string, u: string)
    requires tok == TOK && Text.Free(inside, IM_END) && prefix == inside + TURN_END
    ensures tok.encode(prefix + u) == tok.encode(prefix) + tok.encode(u)
  {
    hide Encode, Letters, Text.Free;
    EndApart(inside, IM_END, AFTER_EOS, u, prefix);
  }

  lemma {:induction false} EndApart(t: string, end: string, nl: string, u: string, s: string)
    requires Text.Free(t, IM_END) && end == IM_END && nl == AFTER_EOS && s == t + (end + nl)
    ensures Encode(s + u) == Encode(s) + Encode(u)
  {
    hide Encode, Letters, Text.Free;
    Text.Assoc(t, end + nl, u);
    Text.Assoc(end, nl, u);
    EncodeEnd(t, nl + u, s + u);
    EncodeEnd(t, nl, s);
    PlainThen(nl, u, nl + u);
    EncodeNewline();
    FourParts(Letters(t), [EOS], Letters(nl), Encode(u));
  }

  lemma {:induction false} FourParts(a: Ids, b: Ids, c: Ids, d: Ids)
    ensures a + (b + (c + d)) == a + (b + c) + d
  {
  }

  lemma {:induction false} InsideFree(block: string, inside: string, prefix: string)
    requires '<' !in block && inside == SYSTEM_HEAD + block && prefix == SYSTEM_HEAD + (block + TURN_END)
    ensures Text.Free(inside, IM_END) && prefix == inside + TURN_END
  {
    hide Text.Free;
    PlainFree(block);
    SystemHead(block, BOS + Framed("system", block));
    assert inside == BOS + IM_START + ("system" + "\n" + block);
  }

  /** The head's ids open the turn's: one a character. */
  lemma {:induction false} HeadOpens(tok: Tokenizer, block: string, head: string, tail: string, turn: string)
    requires tok == TOK && '<' !in block && head == USER + block + "\n\n" && turn == head + tail
    ensures tok.encode(head) <= tok.encode(turn) && |tok.encode(head)| == |head|
  {
    hide Encode, Letters;
    assert turn[5] == head[5] == 's';
    StartOfOther(head);
    StartOfOther(turn);
    StartThen(head, tail, turn);
    EncodeStart(head);
    LettersPlain(head);
  }

  lemma {:induction false} StartOfOther(s: string)
    requires |s| > 5 && s[5] == 's'
    ensures !(IM_END <= s)
  {
    assert IM_END[5] == 'e';
  }

  /** A plain read and a tail read on the held context of the spec's own system
      turn: one prompt, one key, no generated turn, and blocks that differ exactly
      when the spec's head does not fill whole chunks. */
  lemma {:induction false} PlainIsNotTail(
      m: Model, s: LoadedSpec, held: Held, block: string, field: string, g: Grammar, inputLabel: string, text: string,
      plain: Read, tail: Read)
    requires m.tok == TOK && OneField(m, s, block, field, g) && OnlySystem(m, s, held)
    requires TwoReads(s, block, field, inputLabel, text, plain, tail)
    requires |s.prefixText| + |UserTurn(s, plain.input)| + 2 < m.contextLimit
    ensures Faithful(m.tok) && AllHeldOk(m, held)
    ensures forall u :: u in Segments(m.tok, s.prefixIds) ==> !LaidAsReply(m.tok, u)
    ensures PromptOf(m, s, held, plain).Success? && PromptOf(m, s, held, tail).Success?
    ensures PromptOf(m, s, held, plain).value.ids == PromptOf(m, s, held, tail).value.ids
    ensures |PromptOf(m, s, held, plain).value.ids| <= |s.prefixText| + |UserTurn(s, plain.input)|
    ensures SpecOk(m, s)
    ensures PromptOf(m, s, held, plain).value.blocks == PromptOf(m, s, held, tail).value.blocks
      <==> (|USER| + |block| + 2) % CHUNK == 0
  {
    var prefix, head, turn := s.prefixText, USER + block + "\n\n", UserTurn(s, plain.input);
    var inside, rest := SYSTEM_HEAD + block, Rendered("", inputLabel, text) + REPLY + s.reasoning;
    SameInput(block, inputLabel, text);
    OneTurn(s, block, plain.input, tail.input, head, rest);
    BlockIs(s, block);
    TokFaithful(m.tok);
    InsideFree(block, inside, prefix);
    PrefixApart(m.tok, inside, prefix, turn);
    HeadOpens(m.tok, block, head, rest, turn);
    SystemIsHead(m.tok, inside, prefix);
    SystemHeld(m, s, held);
    EncodeAtMost(prefix);
    EncodeAtMost(turn);
    OneFieldOk(m, s, block, field, g);
    hide Faithful, IsHead, Encode, Chunked, AllHeldOk, Segments, LaidAsReply, Canonical, SpecOk, UserTurn, Block,
         Rendered, TailHead;
    EncodedNonempty(m.tok, turn);
    BothPrompts(m, s, held, block, plain, tail, head, turn);
    PlainAndTailDiffer(m, s, held, plain, tail);
  }

  lemma {:induction false} OneFieldOk(m: Model, s: LoadedSpec, block: string, field: string, g: Grammar)
    requires Faithful(m.tok) && OneField(m, s, block, field, g)
    ensures SpecOk(m, s)
  {
    EncodedNonempty(m.tok, s.prefixText);
    hide Faithful, Chunked;
  }

  /** Both reads' turn: the head and the rest. */
  lemma {:induction false} OneTurn(
      s: LoadedSpec, block: string, input: string, short: string, head: string, rest: string)
    requires head == USER + block + "\n\n" && input == block + "\n\n" + short && rest == short + REPLY + s.reasoning
    ensures UserTurn(s, input) == head + rest && TailHead(block) == head
  {
  }

  lemma {:induction false} SystemIsHead(tok: Tokenizer, inside: string, prefix: string)
    requires tok == TOK && Faithful(tok) && prefix == inside + TURN_END && SYSTEM_HEAD <= inside
    requires Text.Free(inside, IM_END)
    ensures IsHead(tok, tok.encode(prefix)) && !IsReply(tok, tok.encode(prefix)) && tok.encode(prefix) != []
  {
    hide Encode, Text.Free, IsClosed;
    StartsAsHead(tok, prefix, SYSTEM_HEAD, GENERATION_PROMPT);
  }

  lemma {:induction false} StartsAsHead(tok: Tokenizer, prefix: string, start: string, opening: string)
    requires Faithful(tok) && start == SYSTEM_HEAD && opening == GENERATION_PROMPT && start <= prefix
    ensures HasSystem(tok, tok.encode(prefix)) && !IsReply(tok, tok.encode(prefix)) && tok.encode(prefix) != []
  {
    hide IsClosed, Text.Free;
    assert Decode(tok, tok.encode(prefix)) == prefix;
    assert prefix[2] == start[2] == 's' && opening[2] == 'i';
  }

  lemma {:induction false} SystemHeld(m: Model, s: LoadedSpec, held: Held)
    requires Faithful(m.tok) && IsHead(m.tok, s.prefixIds) && !IsReply(m.tok, s.prefixIds) && OnlySystem(m, s, held)
    ensures AllHeldOk(m, held) && forall u :: u in Segments(m.tok, s.prefixIds) ==> !LaidAsReply(m.tok, u)
  {
    hide Faithful, IsHead, IsReply, Segments, IsTranscript, Canonical;
    HeadAlone(m.tok, s.prefixIds);
    assert s.prefixIds + Flatten([]) == s.prefixIds;
    SegmentsOf(m.tok, s.prefixIds, [], s.prefixIds);
  }

  lemma {:induction false} BothPrompts(
      m: Model, s: LoadedSpec, held: Held, block: string, plain: Read, tail: Read, head: string, turn: string)
    requires s.prefixIds == m.tok.encode(s.prefixText) && !s.tools && Block(s) == Some(block)
    requires TailHead(block) == head && UserTurn(s, plain.input) == turn && plain.input == block + "\n\n" + tail.input
    requires m.tok.encode(s.prefixText + turn) == s.prefixIds + m.tok.encode(turn)
    requires m.tok.encode(head) <= m.tok.encode(turn) && m.tok.encode(turn) != []
    requires |s.prefixIds| + |m.tok.encode(turn)| + 2 < m.contextLimit
    requires ContextId(s.prefixIds) in held && held[ContextId(s.prefixIds)].ids == s.prefixIds
    requires plain.context.None? && plain.useCache && tail.context == Some(ContextId(s.prefixIds)) && tail.useCache
    ensures PromptOf(m, s, held, plain).Success? && PromptOf(m, s, held, tail).Success?
    ensures PromptOf(m, s, held, plain).value.ids == PromptOf(m, s, held, tail).value.ids
      == s.prefixIds + m.tok.encode(turn)
  {
    hide Chunked, Block, TailHead, UserTurn;
  }

  // ---- A read answered with another read's description ----------------------------------------

  /** The model, under grammar `g`, writes `w` a character at a time, whatever it read. */
  ghost predicate Writes(m: Model, g: Grammar, w: string) {
    m.tok == TOK && m.start(g) == 0
    && forall logits, seen, c | 0 <= c < |w| ::
         var t := m.pick(logits, seen, Some((g, c)));
         t == FIRST + w[c] as int && m.accept(g, c, t) == Some(c + 1) && m.usable(t)
  }

  /** Some model does. */
  lemma {:induction false} SomeWrites(g: Grammar, w: string, contextLimit: nat) returns (m: Model)
    ensures Writes(m, g, w) && m.contextLimit == contextLimit
  {
    m := Model(
      TOK, c => false,
      (logits: State, seen: set<Token>, at: Option<(Grammar, Cursor)>) =>
        if at.Some? && at.value.1 < |w| then FIRST + w[at.value.1] as int else EOS,
      (g: Grammar) => 0,
      (g: Grammar, c: Cursor, t: Token) => if c < |w| && t == FIRST + w[c] as int then Some(c + 1) else None,
      (t: Token) => true, contextLimit, |IM_END|);
  }

  /** After `k` steps the model has written the first `k` characters. */
  lemma {:induction false} Written(m: Model, g: Grammar, w: string, ids: Ids, path: State, k: nat) returns (d: Config)
    requires Writes(m, g, w) && k <= |w|
    ensures Steps(m, Begin(m, Some(g), ids, path), k) == Some(d)
    ensures d.generated == Letters(w[..k]) && d.decoder.position == Some((g, k))
  {
    var c := Begin(m, Some(g), ids, path);
    if k == 0 {
      d := c;
    } else {
      var before := Written(m, g, w, ids, path, k - 1);
      StepsSnoc(m, c, k - 1, before);
      d := WritesNext(m, g, w, k - 1, before);
    }
  }

  lemma {:induction false} WritesNext(m: Model, g: Grammar, w: string, k: nat, d: Config) returns (e: Config)
    requires Writes(m, g, w) && k < |w| && d.generated == Letters(w[..k]) && d.decoder.position == Some((g, k))
    ensures Next(m, d) == Went(e)
    ensures e.generated == Letters(w[..k + 1]) && e.decoder.position == Some((g, k + 1))
  {
    var t := m.pick(d.logits, d.decoder.seen, d.decoder.position);
    assert t == FIRST + w[k] as int;
    LettersSnoc(w[..k], w[k]);
    assert w[..k + 1] == w[..k] + [w[k]];
    e := Next(m, d).next;
  }

  lemma {:induction false} LettersSnoc(t: string, c: char)
    ensures Letters(t + [c]) == Letters(t) + [FIRST + c as int]
  {
    if t != "" {
      assert (t + [c])[1..] == t[1..] + [c];
      LettersSnoc(t[1..], c);
    }
  }

  lemma {:induction false} LettersDecode(t: string)
    requires '<' !in t
    ensures Decode(TOK, Letters(t)) == t
  {
    EncodePlain(t);
    DecodesBack(t);
  }

  /** Describing the one field of such a spec stops at its slot. */
  lemma {:induction false} OneSlot(
      m: Model, g: Grammar, field: string, w: string, ids: Ids, path: State, k: nat, d: Config, budget: nat)
    requires '<' !in SlotText(field) && w == "{" + SlotText(field) && Writes(m, g, w)
    requires k < |w| && d.generated == Letters(w[..k]) && d.decoder.position == Some((g, k)) && budget >= |w| - k
    ensures Describe(m, d, [field], budget).Success?
    decreases |w| - k
  {
    hide Next, SlotText, Letters, Decode;
    SlotOpens(field);
    var e := WritesNext(m, g, w, k, d);
    LettersDecode(w[..k]);
    LettersDecode(w[..k + 1]);
    if k + 1 < |w| {
      NotYet(SlotText(field), w, k + 1);
      OneSlot(m, g, field, w, ids, path, k + 1, e, budget - 1);
    } else {
      assert w[..k + 1] == w;
      EndsThere(SlotText(field), w);
    }
  }

  lemma {:induction false} SlotOpens(field: string)
    ensures SlotText(field) != "" && SlotText(field)[0] == '"'
  {
  }

  lemma {:induction false} EndsThere(slot: string, w: string)
    requires w == "{" + slot
    ensures Text.EndsWith(w, slot)
  {
  }

  /** Before its end the text neither stands at the slot nor has passed it. */
  lemma {:induction false} NotYet(slot: string, w: string, k: nat)
    requires w == "{" + slot && k < |w| && slot != "" && slot[0] != '{'
    ensures !Text.EndsWith(w[..k], slot) && forall at :: Text.At(w[..k], at, slot) ==> at + |slot| >= k
  {
  }

  lemma {:induction false} AskedOnce(m: Model, s: LoadedSpec, block: string, field: string, g: Grammar, q: Read)
    requires OneField(m, s, block, field, g) && q.spec == s.id && q.questions == [Question(field, 0)]
    ensures Asking([s], [], q) == Success(s) && Asked(s, q.questions) && InOrder(q.questions)
    ensures Fields(q.questions) == [field]
  {
  }

  /** A fresh read of the one field finds its slot, first along its own blocks. */
  lemma {:induction false} FreshOnce(
      m: Model, s: LoadedSpec, held: Held, field: string, g: Grammar, w: string, q: Read)
    requires '<' !in SlotText(field) && w == "{" + SlotText(field) && |w| <= 512 && Writes(m, g, w)
    requires s.grammar == Some(g) && q.questions == [Question(field, 0)] && Fields(q.questions) == [field]
    requires PromptOf(m, s, held, q).Success? && |PromptOf(m, s, held, q).value.ids| + |w| <= m.contextLimit
    ensures FreshSlots(m, s, held, q).Success? && |FreshSlots(m, s, held, q).value| == 1
    ensures var p, slot := PromptOf(m, s, held, q).value, FreshSlots(m, s, held, q).value[0];
      IsFirst(m, Begin(m, s.grammar, p.ids, p.blocks), field, slot) && PathOf(slot) == p.blocks
  {
    hide PromptOf, Describe, IsFirst, PathOf, SlotText, Writes;
    var p := PromptOf(m, s, held, q).value;
    var c := Begin(m, Some(g), p.ids, p.blocks);
    StartsAt(m, g, w, p.ids, p.blocks);
    OneSlot(m, g, field, w, p.ids, p.blocks, 0, c, BudgetOf(m, p.ids, q.questions));
    DescribedFirst(m, g, p.ids, p.blocks, [field], BudgetOf(m, p.ids, q.questions));
    FirstSlotPath(m, s.grammar, p.ids, p.blocks, field, FreshSlots(m, s, held, q).value[0]);
  }

  lemma {:induction false} StartsAt(m: Model, g: Grammar, w: string, ids: Ids, path: State)
    requires Writes(m, g, w)
    ensures var c := Begin(m, Some(g), ids, path);
      c.generated == Letters(w[..0]) && c.decoder.position == Some((g, 0))
  {
  }

  /** A slot held alone, first along the blocks it was described on, is a good cache. */
  lemma {:induction false} OneHeld(
      m: Model, s: LoadedSpec, held: Held, ids: Ids, blocks: State, field: string, slot: Slot, cache: Cache)
    requires IsFirst(m, Begin(m, s.grammar, ids, blocks), field, slot) && PathOf(slot) == blocks
    requires cache == map[DescribedKey(s.id, ids, field) := Described(ids, field, slot)]
    ensures CacheOk(m, {s}, held, {Path(s.id, ids, blocks)}, cache)
    ensures Hit(cache, s.id, ids, [field]) && SlotsHeld(cache, s.id, ids, [field]) == [slot]
  {
    hide IsFirst, PathOf;
    assert s in {s};
  }

  lemma {:induction false} Answered(m: Model, s: LoadedSpec, held: Held, cache: Cache, field: string, q: Read)
    requires q.questions == [Question(field, 0)] && Fields(q.questions) == [field] && q.useCache
    requires FreshSlots(m, s, held, q).Success? && PromptOf(m, s, held, q).Success?
    ensures var ids := PromptOf(m, s, held, q).value.ids;
      AnswerOf(m, s, held, cache, q)
        == if Hit(cache, s.id, ids, [field]) then Success(Answer(SlotsHeld(cache, s.id, ids, [field]), true))
           else Success(Answer(FreshSlots(m, s, held, q).value, false))
  {
    PromptIds(m, s, held, q);
    hide PromptOf, ReadIds, FreshSlots, Hit, SlotsHeld;
  }

  /** The described cache is not invisible. The plain read, on empty caches, leaves
      its slot held; the tail read on the same ids is then answered with that slot,
      which is not the one it finds on empty caches. */
  lemma {:induction false} StaleAnswer(
      m: Model, s: LoadedSpec, held: Held, block: string, field: string, g: Grammar, w: string,
      inputLabel: string, text: string, plain: Read, tail: Read)
    requires '<' !in SlotText(field) && w == "{" + SlotText(field) && |w| <= 512 && Writes(m, g, w)
    requires OneField(m, s, block, field, g) && OnlySystem(m, s, held)
    requires TwoReads(s, block, field, inputLabel, text, plain, tail)
    requires |s.prefixText| + |UserTurn(s, plain.input)| + |w| + 2 < m.contextLimit
    requires (|USER| + |block| + 2) % CHUNK != 0
    ensures AllSpecsOk(m, {s}) && AllHeldOk(m, held)
    ensures Asking([s], [], plain) == Success(s) && Asking([s], [], tail) == Success(s)
    ensures PromptOf(m, s, held, plain).Success?
    ensures FreshSlots(m, s, held, plain).Success? && |FreshSlots(m, s, held, plain).value| == 1
    ensures FreshSlots(m, s, held, tail).Success?
    ensures var p, slot := PromptOf(m, s, held, plain).value, FreshSlots(m, s, held, plain).value[0];
      var cache: Cache := map[DescribedKey(s.id, p.ids, field) := Described(p.ids, field, slot)];
      CacheOk(m, {s}, held, {Path(s.id, p.ids, p.blocks)}, cache)
      && AnswerOf(m, s, held, map[], plain) == Success(Answer([slot], false))
      && AnswerOf(m, s, held, cache, tail) == Success(Answer([slot], true))
      && FreshSlots(m, s, held, tail).value != [slot]
  {
    hide *;
    ReadsAre(m, s, block, field, g, w, inputLabel, text, plain, tail);
    PlainIsNotTail(m, s, held, block, field, g, inputLabel, text, plain, tail);
    OneSpecOk(m, s);
    AskedOnce(m, s, block, field, g, plain);
    AskedOnce(m, s, block, field, g, tail);
    FreshOnce(m, s, held, field, g, w, plain);
    FreshOnce(m, s, held, field, g, w, tail);
    var p, slot := PromptOf(m, s, held, plain).value, FreshSlots(m, s, held, plain).value[0];
    var cache: Cache := map[DescribedKey(s.id, p.ids, field) := Described(p.ids, field, slot)];
    OneHeld(m, s, held, p.ids, p.blocks, field, slot, cache);
    Answered(m, s, held, map[], field, plain);
    Answered(m, s, held, cache, field, tail);
    NoHit(s.id, p.ids, field);
    assert FreshSlots(m, s, held, plain).value == [slot];
    assert PathOf(slot) != PathOf(FreshSlots(m, s, held, tail).value[0]);
  }

  lemma {:induction false} ReadsAre(
      m: Model, s: LoadedSpec, block: string, field: string, g: Grammar, w: string,
      inputLabel: string, text: string, plain: Read, tail: Read)
    requires Writes(m, g, w) && OneField(m, s, block, field, g)
    requires TwoReads(s, block, field, inputLabel, text, plain, tail)
    ensures m.tok == TOK && s.grammar == Some(g)
    ensures plain.spec == s.id && plain.questions == [Question(field, 0)] && plain.useCache
    ensures tail.spec == s.id && tail.questions == [Question(field, 0)] && tail.useCache
  {
    hide Chunked, Encode, Rendered;
  }

  lemma {:induction false} OneSpecOk(m: Model, s: LoadedSpec)
    requires SpecOk(m, s)
    ensures AllSpecsOk(m, {s})
  {
    hide SpecOk;
  }

  lemma {:induction false} NoHit(spec: string, ids: Ids, field: string)
    ensures !Hit(map[], spec, ids, [field])
  {
    assert field in [field];
  }

  /** So it is for every block and field free of `<`, when the block's head does not
      fill whole chunks: some model and context limit answer so. */
  lemma {:induction false} SomeStale(block: string, field: string, inputLabel: string, text: string)
      returns (m: Model, s: LoadedSpec, held: Held, paths: set<Path>, cache: Cache, plain: Read, tail: Read)
    requires '<' !in block && '<' !in SlotText(field) && |SlotText(field)| < 512
    requires (|USER| + |block| + 2) % CHUNK != 0
    ensures Faithful(m.tok) && AllSpecsOk(m, {s}) && AllHeldOk(m, held) && CacheOk(m, {s}, held, paths, cache)
    ensures TwoReads(s, block, field, inputLabel, text, plain, tail)
    ensures Asking([s], [], plain) == Success(s) && Asking([s], [], tail) == Success(s)
    ensures AnswerOf(m, s, held, map[], plain).Success? && AnswerOf(m, s, held, cache, tail).Success?
    ensures AnswerOf(m, s, held, cache, tail).value.slots == AnswerOf(m, s, held, map[], plain).value.slots
    ensures FreshSlots(m, s, held, tail).Success?
    ensures AnswerOf(m, s, held, cache, tail).value.slots != FreshSlots(m, s, held, tail).value
  {
    hide *;
    var w := "{" + SlotText(field);
    s := SpecFor(block, field);
    var prefix := s.prefixText;
    plain, tail := ReadsFor(s, block, field, inputLabel, text);
    m := SomeWrites(0, w, |prefix| + |UserTurn(s, plain.input)| + |w| + 3);
    held := map[ContextId(s.prefixIds) := Canonical(m, ContextId(s.prefixIds))];
    SetUp(m, s, held, block, field, w);
    PlainIsNotTail(m, s, held, block, field, 0, inputLabel, text, plain, tail);
    StaleAnswer(m, s, held, block, field, 0, w, inputLabel, text, plain, tail);
    var p, slot := PromptOf(m, s, held, plain).value, FreshSlots(m, s, held, plain).value[0];
    cache := map[DescribedKey(s.id, p.ids, field) := Described(p.ids, field, slot)];
    paths := {Path(s.id, p.ids, p.blocks)};
  }

  lemma {:induction false} SpecFor(block: string, field: string) returns (s: LoadedSpec)
    ensures s.prefixText == SYSTEM_HEAD + (block + TURN_END) && s.prefixIds == TOK.encode(s.prefixText)
    ensures s.prefix == Chunked(s.prefixIds, CHUNK) && !s.tools && s.grammar == Some(0) && s.fields == [field]
  {
    var t := SYSTEM_HEAD + (block + TURN_END);
    s := LoadedSpec("id", "name", t, TOK.encode(t), Chunked(TOK.encode(t), CHUNK), false, "", Some(0), [field]);
    hide Encode, Chunked;
  }

  lemma {:induction false} ReadsFor(s: LoadedSpec, block: string, field: string, inputLabel: string, text: string)
      returns (plain: Read, tail: Read)
    ensures TwoReads(s, block, field, inputLabel, text, plain, tail)
  {
    plain := Read(s.id, [Question(field, 0)], Rendered(block + "\n\n", inputLabel, text), None, true);
    tail := Read(s.id, [Question(field, 0)], Rendered("", inputLabel, text), Some(ContextId(s.prefixIds)), true);
    hide Rendered;
  }

  lemma {:induction false} SetUp(m: Model, s: LoadedSpec, held: Held, block: string, field: string, w: string)
    requires '<' !in block && Writes(m, 0, w)
    requires s.prefixText == SYSTEM_HEAD + (block + TURN_END) && s.prefixIds == TOK.encode(s.prefixText)
    requires s.prefix == Chunked(s.prefixIds, CHUNK) && !s.tools && s.grammar == Some(0) && s.fields == [field]
    requires held == map[ContextId(s.prefixIds) := Canonical(m, ContextId(s.prefixIds))]
    ensures m.tok == TOK && OneField(m, s, block, field, 0) && OnlySystem(m, s, held)
  {
    hide Encode, Chunked, Canonical;
  }

  /** For one: the block "x" and the field "f", asked about "hi" under "Input". */
  lemma {:induction false} HiIsStale()
      returns (m: Model, s: LoadedSpec, held: Held, paths: set<Path>, cache: Cache, plain: Read, tail: Read)
    ensures Faithful(m.tok) && AllSpecsOk(m, {s}) && AllHeldOk(m, held) && CacheOk(m, {s}, held, paths, cache)
    ensures TwoReads(s, "x", "f", "Input", "hi", plain, tail) && Asking([s], [], tail) == Success(s)
    ensures AnswerOf(m, s, held, cache, tail).Success? && FreshSlots(m, s, held, tail).Success?
    ensures AnswerOf(m, s, held, cache, tail).value.slots != FreshSlots(m, s, held, tail).value
  {
    var block, field := "x", "f";
    SmallSlot(field);
    assert '<' !in block && (|USER| + |block| + 2) % CHUNK != 0;
    hide *;
    m, s, held, paths, cache, plain, tail := SomeStale(block, field, "Input", "hi");
  }

  lemma {:induction false} SmallSlot(f: string)
    requires f == "f"
    ensures '<' !in SlotText(f) && |SlotText(f)| == 6
  {
    assert f[1..] == "";
    assert Json.Escaped(f) == "f";
  }
}
