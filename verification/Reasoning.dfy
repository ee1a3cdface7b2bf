/** A generated turn split at its reasoning region and put back together, and
    the deltas a streamed turn is sent as (`lfm2d/src/chat_session.rs`). */
module Reasoning {
  import opened Wrappers
  import opened Template
  import Text

  const OPEN := "<think>"
  const CLOSE := "</think>"

  datatype Parts = Parts(thinking: Option<string>, content: Option<string>)

  function SplitReasoning(text: string): Parts {
    if !(OPEN <= text) then Parts(None, Some(text))
    else
      var rest := text[|OPEN|..];
      match Text.Find(rest, CLOSE)
      case None => Parts(Some(rest), None)
      case Some(i) => Parts(Some(rest[..i]), Some(rest[i + |CLOSE|..]))
  }

  /** The text of a turn with these parts, the region closed when there is content. */
  function Reassembled(p: Parts): string {
    (match p.thinking
     case None => ""
     case Some(t) => OPEN + t + (if p.content.Some? then CLOSE else ""))
    + (if p.content.Some? then p.content.value else "")
  }

  /** Splitting loses nothing: closed, absent or cut off, the parts make the
      same text again, and the thinking never holds the close. */
  lemma {:induction false} SplitReassembles(text: string)
    ensures var p := SplitReasoning(text);
      Reassembled(p) == text && (p.thinking.Some? ==> Text.Free(p.thinking.value, CLOSE))
  {
    if OPEN <= text {
      var rest := text[|OPEN|..];
      var found := Text.Find(rest, CLOSE);
      if found.Some? {
        Cut(rest, CLOSE, found.value);
        FreeBefore(rest, CLOSE, found.value);
        Text.Assoc3(OPEN, rest[..found.value], CLOSE, rest[found.value + |CLOSE|..]);
      }
      hide Text.Free, Text.At;
    }
  }

  lemma {:induction false} Cut(s: string, p: string, i: nat)
    requires Text.At(s, i, p)
    ensures s == s[..i] + (p + s[i + |p|..])
  {
    assert s[..i] + s[i..] == s;
    assert s[i..] == s[i..i + |p|] + s[i + |p|..];
  }

  lemma {:induction false} FreeBefore(s: string, p: string, i: nat)
    requires i <= |s| && p != "" && forall j :: 0 <= j < i ==> !Text.At(s, j, p)
    ensures Text.Free(s[..i], p)
  {
    forall j
      ensures !Text.At(s[..i], j, p)
    {
      assert s == s[..i] + s[i..];
      Text.AtInJoin(s[..i], s[i..], p, j);
    }
  }

  /** What the renderer writes for accepted thinking and content splits back
      into exactly that thinking and content. */
  lemma {:induction false} RenderedSplits(alnum: char -> bool, thinking: Option<string>, content: string)
    requires Body(alnum, Assistant(thinking, Some(content), None)).Success?
    ensures SplitReasoning(Body(alnum, Assistant(thinking, Some(content), None)).value)
         == Parts(thinking, Some(content))
  {
    var text := Body(alnum, Assistant(thinking, Some(content), None)).value;
    match thinking {
      case None =>
        assert text == content;
        assert !Text.At(text, 0, OPEN);
      case Some(t) =>
        var rest := t + CLOSE + content;
        assert text == OPEN + rest;
        Text.DropHead(OPEN, rest);
        assert Text.Free(t, CLOSE);
        Text.FindAtJoin(t, CLOSE, content);
        assert rest[..|t|] == t && rest[|t| + |CLOSE|..] == content;
    }
  }

  /** Rendering the parts of a turn whose region closed, or never opened, gives
      its bytes back exactly when neither part carries a control marker and the
      content does not carry the template's sentinel; otherwise it is refused. */
  lemma {:induction false} ReRenders(alnum: char -> bool, text: string)
    requires SplitReasoning(text).content.Some?
    ensures var p := SplitReasoning(text);
      var again := Body(alnum, Assistant(p.thinking, p.content, None));
      (again == Success(text) <==> again.Success?)
      && (again.Success? <==> (p.thinking.Some? ==> !HasMarker(p.thinking.value))
                              && !HasMarker(p.content.value) && !Text.Contains(p.content.value, FINAL_TAG))
  {
    SplitReassembles(text);
    var p := SplitReasoning(text);
    var again := Body(alnum, Assistant(p.thinking, p.content, None));
    if again.Success? {
      var t := ThinkingText(p.thinking).value;
      assert again.value == t + p.content.value + "";
      assert again.value == Reassembled(p);
    }
  }

  /** A turn that calls a tool has no rendering from its parts, whatever it
      calls: the call's own control tokens are in the content. */
  lemma {:induction false} ToolCallDoesNotReRender(alnum: char -> bool, calls: string)
    ensures var text := CALLS_START + calls + CALLS_END;
      var p := SplitReasoning(text);
      p == Parts(None, Some(text)) && Body(alnum, Assistant(p.thinking, p.content, None)) == Failure(ControlMarker)
  {
    var text := CALLS_START + calls + CALLS_END;
    assert text[1] == '|' && OPEN[1] == 't';
    assert text[0..2] == "<|";
    assert Text.At(text, 0, "<|");
  }

  // ---- Streaming -----------------------------------------------------------

  type Byte = n: nat | n < 256

  /** U+FFFD, which a decode ends with inside a multi-byte character. */
  const REPLACEMENT: seq<Byte> := [0xEF, 0xBF, 0xBD]

  predicate HeldBack(decoded: seq<Byte>) {
    |decoded| >= 3 && decoded[|decoded| - 3..] == REPLACEMENT
  }

  /** `str::get(at..)` needs `at` inside the text and on a character's first byte. */
  predicate IsBoundary(decoded: seq<Byte>, at: nat) {
    at == |decoded| || (at < |decoded| && !(0x80 <= decoded[at] < 0xC0))
  }

  /** What one decode adds to a stream of `sent` bytes, and how long the stream
      is then; `None` when the decode shrank. */
  function Delta(decoded: seq<Byte>, sent: nat): Option<(seq<Byte>, nat)> {
    if HeldBack(decoded) then Some(([], sent))
    else if IsBoundary(decoded, sent) then Some((decoded[sent..], |decoded|))
    else None
  }

  /** A stream, and the bytes it has sent joined. */
  class Stream {
    var sent: nat
    ghost var text: seq<Byte>

    ghost predicate Valid()
      reads this
    {
      |text| == sent && !HeldBack(text)
    }

    constructor ()
      ensures Valid() && text == []
    {
      sent, text := 0, [];
    }

    /** `text_delta`: what was sent is the decode exactly when the decode is not
        held back and extends what was sent before, at a character's first byte. */
    method TextDelta(decoded: seq<Byte>) returns (r: Option<seq<Byte>>)
      requires Valid()
      modifies this
      ensures Valid() && text == old(text) + r.GetOr([])
      ensures text == decoded <==> !HeldBack(decoded) && old(text) <= decoded && IsBoundary(decoded, old(|text|))
      ensures r.None? <==> !HeldBack(decoded) && !IsBoundary(decoded, old(|text|))
      ensures HeldBack(decoded) ==> r == Some([])
      ensures match Delta(decoded, old(sent))
        case None => r.None?
        case Some((delta, now)) => r == Some(delta) && sent == now
    {
      if HeldBack(decoded) {
        return Some([]);
      }
      if !IsBoundary(decoded, sent) {
        return None;
      }
      r := Some(decoded[sent..]);
      DeltaAgrees(decoded, text);
      JoinNotHeldBack(text, decoded);
      text := text + decoded[sent..];
      sent := |decoded|;
    }
  }

  /** No join of what was sent and what comes makes a U+FFFD. */
  lemma {:induction false} JoinNotHeldBack(text: seq<Byte>, decoded: seq<Byte>)
    requires !HeldBack(text) && !HeldBack(decoded) && IsBoundary(decoded, |text|)
    ensures !HeldBack(text + decoded[|text|..])
  {
    var all := text + decoded[|text|..];
    assert |text| == |decoded| ==> all == text;
    assert |decoded| >= |text| + 3 ==> all[|all| - 3..] == decoded[|decoded| - 3..];
    assert |text| < |decoded| ==> all[|text|] == decoded[|text|];
  }

  /** Everything a run of decodes streams, after `sent` bytes. */
  function Streamed(decodes: seq<seq<Byte>>, sent: nat): Option<seq<Byte>> {
    if decodes == [] then Some([])
    else match Delta(decodes[0], sent)
      case None => None
      case Some((delta, now)) =>
        match Streamed(decodes[1..], now)
        case None => None
        case Some(more) => Some(delta + more)
  }

  /** The last decode that was not held back. */
  function LastClean(decodes: seq<seq<Byte>>, before: seq<Byte>): seq<Byte> {
    if decodes == [] then before
    else LastClean(decodes[1..], if HeldBack(decodes[0]) then before else decodes[0])
  }

  /** Each decode only extends what was sent, at a character's first byte. */
  predicate Extends(decodes: seq<seq<Byte>>, before: seq<Byte>) {
    decodes == []
    || (if HeldBack(decodes[0]) then Extends(decodes[1..], before)
        else before <= decodes[0] && IsBoundary(decodes[0], |before|) && Extends(decodes[1..], decodes[0]))
  }

  /** The streamed deltas concatenate to the last clean decode. */
  lemma {:induction false} StreamIsLastDecode(decodes: seq<seq<Byte>>, before: seq<Byte>)
    requires Extends(decodes, before)
    ensures Streamed(decodes, |before|).Some?
    ensures before + Streamed(decodes, |before|).value == LastClean(decodes, before)
  {
    if decodes == [] {
      assert before + [] == before;
    } else if HeldBack(decodes[0]) {
      StreamIsLastDecode(decodes[1..], before);
      var more := Streamed(decodes[1..], |before|).value;
      assert [] + more == more;
    } else {
      StreamIsLastDecode(decodes[1..], decodes[0]);
      var delta, more := decodes[0][|before|..], Streamed(decodes[1..], |decodes[0]|).value;
      assert before + delta == decodes[0];
      Text.Assoc(before, delta, more);
    }
  }

  /** One step keeps the stream equal to the decode exactly when the decode
      extends what was sent; a shorter or unaligned decode is refused, but a
      rewrite of the same length or more is not noticed. */
  lemma {:induction false} DeltaAgrees(decoded: seq<Byte>, before: seq<Byte>)
    requires !HeldBack(decoded)
    ensures var d := Delta(decoded, |before|);
      (d.Some? && before + d.value.0 == decoded) <==> (before <= decoded && IsBoundary(decoded, |before|))
  {
    var d := Delta(decoded, |before|);
    if d.Some? {
      assert decoded == decoded[..|before|] + decoded[|before|..];
      if before + d.value.0 == decoded {
        Text.DropHead(before, d.value.0);
      }
    }
  }

  lemma {:induction false} RewriteGoesUnnoticed()
    ensures Streamed([[97, 98], [99, 100, 120]], 0) == Some([97, 98, 120])
    ensures LastClean([[97, 98], [99, 100, 120]], []) == [99, 100, 120]
  {
    var a: seq<Byte>, b: seq<Byte> := [97, 98], [99, 100, 120];
    assert [a, b][1..] == [b];
    assert b[2..] == [120] && [120] + [] == [120];
    assert Streamed([b], 2) == Some([120]);
    assert a[0..] == a && a + [120] == [97, 98, 120];
    assert LastClean([b], a) == b;
  }
}
