/** The council's bookkeeping (`demo/web/council.py`): a tab's head is pinned
    remotely under an id made of its content, two tabs may need one pin, a delete
    counts no references, and any remote call may fail, be lost on the way
    back, or find the daemon restarted. */
module Councils {
  import opened Wrappers
  import Passages

  /** A context's id: a hash of the content. */
  type Id = nat

  datatype Message = Message(assistant: bool, content: string, thinking: Option<string>)

  /** What a tab's context is built from: the system turn's text, the reviewer's
      framing apart, and the messages. */
  datatype Head = Head(system: string, messages: seq<Message>)

  /** The chat that wrote a tab's replies, and what it held. */
  datatype ChatRef = ChatRef(checkpoint: Id, head: Head)

  datatype Tab = Tab(
    id: nat, name: string, preamble: string, included: bool, messages: seq<Message>,
    context: Option<Id>, chat: Option<ChatRef>)

  datatype Read = Read(contexts: seq<Id>, spec: nat, verdict: nat)

  datatype Cause = Added | Renamed | Toggled | Removed | Edited | AskedIn | SpecChanged

  datatype Flip = Flip(before: nat, after: nat, cause: Cause)

  datatype Decision = Decision(n: nat, action: string, read: Read, history: seq<Read>, flip: Option<Flip>)

  datatype Error = Refused | Missing | ContextGone | SpecGone | Faulty

  const MAX_TABS := 8
  const MAX_MESSAGES := 64
  const MAX_DECISIONS := 500
  const BACKFILL_K := 12
  const HISTORY := 8

  /** `str.strip`. */
  function Stripped(s: string): (r: string)
    ensures r == "" || (!Passages.Space(r[0]) && !Passages.Space(r[|r| - 1]))
    decreases |s|
  {
    if s == "" then ""
    else if Passages.Space(s[0]) then Stripped(s[1..])
    else if Passages.Space(s[|s| - 1]) then Stripped(s[..|s| - 1])
    else s
  }

  /** Only whitespace goes, and only at the ends. */
  lemma {:induction false} StripsEnds(s: string) returns (before: string, after: string)
    ensures before + Stripped(s) + after == s
    ensures forall c :: c in before || c in after ==> Passages.Space(c)
    decreases |s|
  {
    before, after := "", "";
    if s != "" {
      if Passages.Space(s[0]) {
        before, after := StripsEnds(s[1..]);
        before := [s[0]] + before;
        assert before + Stripped(s) + after == [s[0]] + s[1..];
      } else if Passages.Space(s[|s| - 1]) {
        before, after := StripsEnds(s[..|s| - 1]);
        after := after + [s[|s| - 1]];
        assert before + Stripped(s) + after == s[..|s| - 1] + [s[|s| - 1]];
      }
    }
  }

  /** The name, and the preamble on lines of its own when it says anything. */
  function System(name: string, preamble: string): string {
    name + (if Stripped(preamble) == "" then "" else "\n" + Stripped(preamble))
  }

  function HeadOf(t: Tab): Head {
    Head(System(t.name, t.preamble), t.messages)
  }

  function Contexts(tabs: seq<Tab>): set<Id> {
    set t | t in tabs && t.context.Some? :: t.context.value
  }

  // ---- The daemon --------------------------------------------------------------

  class Daemon {
    const idOf: Head -> Id
    /** The contexts held pinned for this council. */
    var pinned: set<Id>
    /** Contexts a restart forgot and no pin has brought back. */
    ghost var forgotten: set<Id>
    /** Contexts pinned by a call that was answered with an error, or whose delete
        was. */
    ghost var leaked: set<Id>
    /** How many restarts, answers lost after a pin, and failed deletes so far. */
    ghost var faults: nat
    /** How many reads, pins and uploads of the specs were asked for. */
    ghost var opinions: nat
    ghost var pins: nat
    ghost var uploads: nat
    /** What was sent to the chat, in order. */
    ghost var asks: seq<Route>

    ghost predicate Valid()
      reads this
    {
      faults == 0 ==> forgotten == {} && leaked == {}
    }

    constructor (idOf: Head -> Id)
      ensures Valid() && pinned == {} && faults == 0 && this.idOf == idOf
    {
      this.idOf := idOf;
      pinned, forgotten, leaked, faults := {}, {}, {}, 0;
      opinions, pins, uploads, asks := 0, 0, 0, [];
    }

    /** What a call that neither pins nor deletes may do. */
    twostate predicate Looked()
      reads this
    {
      Valid() && leaked == old(leaked) && pinned + forgotten == old(pinned + forgotten) && pinned <= old(pinned)
      && faults >= old(faults) && (faults == old(faults) ==> pinned == old(pinned))
    }

    /** A restart may have forgotten every context. */
    method Arrive()
      requires Valid()
      modifies this`pinned, this`forgotten, this`faults
      ensures Looked()
    {
      if * {
        forgotten := forgotten + pinned;
        pinned := {};
        faults := faults + 1;
      }
    }

    /** `POST /v1/contexts` with `pin: true`. */
    method Pin(head: Head) returns (r: Result<Id, Error>)
      requires Valid()
      modifies this
      ensures Valid() && faults >= old(faults)
      ensures pinned <= old(pinned) + {idOf(head)} && old(pinned + forgotten) <= pinned + forgotten
      ensures r.Success? ==> r.value == idOf(head) && idOf(head) in pinned && leaked == old(leaked)
      ensures r.Success? && faults == old(faults) ==> pinned == old(pinned) + {idOf(head)}
      ensures r.Failure? ==> pinned <= old(pinned) + leaked && old(leaked) <= leaked
      ensures r.Failure? && faults == old(faults) ==> pinned == old(pinned) && leaked == old(leaked)
      ensures pins == old(pins) + 1 && opinions == old(opinions) && uploads == old(uploads) && asks == old(asks)
    {
      pins := pins + 1;
      Arrive();
      var id := idOf(head);
      if * {
        return Failure(Refused);
      }
      if * {
        return Failure(Faulty);
      }
      if * {
        pinned := pinned + {id};
        leaked := leaked + {id};
        faults := faults + 1;
        return Failure(Faulty);
      }
      pinned := pinned + {id};
      forgotten := forgotten - {id};
      return Success(id);
    }

    /** `DELETE /v1/contexts/{id}`; what is not held answers 404, which is the goal. */
    method Delete(id: Id) returns (r: Result<(), Error>)
      requires Valid()
      modifies this
      ensures Valid() && faults >= old(faults) && asks == old(asks)
      ensures pinned <= old(pinned) && old(pinned + forgotten) - {id} <= pinned + forgotten
      ensures old(leaked) <= leaked && (id in pinned ==> id in leaked)
      ensures faults == old(faults) ==> r.Success? && pinned == old(pinned) - {id} && leaked == old(leaked)
    {
      Arrive();
      if * {
        leaked := leaked + {id};
        faults := faults + 1;
        return Failure(Faulty);
      }
      pinned := pinned - {id};
      if * {
        faults := faults + 1;
        return Failure(Faulty);
      }
      return Success(());
    }

    /** `POST /v1/opinion` over these contexts. */
    method Opinion(action: string, contexts: seq<Id>, spec: nat) returns (r: Result<Read, Error>)
      requires Valid()
      modifies this
      ensures Looked()
      ensures r.Success? ==> r.value.contexts == contexts && r.value.spec == spec
      ensures r == Failure(ContextGone) ==> exists id :: id in contexts && id !in pinned
      ensures opinions == old(opinions) + 1 && pins == old(pins) && uploads == old(uploads)
    {
      opinions := opinions + 1;
      Arrive();
      if exists id :: id in contexts && id !in pinned {
        return Failure(ContextGone);
      }
      if * {
        return Failure(SpecGone);
      }
      if * {
        return Failure(Refused);
      }
      if * {
        return Failure(Faulty);
      }
      var verdict: int := *;
      return Success(Read(contexts, spec, if verdict < 0 then 0 else verdict));
    }

    /** The specs uploaded again. */
    method Upload() returns (r: Result<(), Error>)
      requires Valid()
      modifies this
      ensures Looked() && uploads == old(uploads) + 1 && pins == old(pins) && opinions == old(opinions)
    {
      uploads := uploads + 1;
      Arrive();
      if * {
        return Failure(Faulty);
      }
      return Success(());
    }

    /** `POST /v1/chat`, to its end: the checkpoint it left and the reply. */
    method Chat(sent: Route) returns (r: Result<(Id, Message), Error>)
      requires Valid()
      modifies this
      ensures Looked() && asks == old(asks) + [sent]
      ensures r.Success? ==> r.value.1.assistant
    {
      asks := asks + [sent];
      Arrive();
      if sent.Continue? {
        if * {
          return Failure(ContextGone);
        }
      }
      if * {
        return Failure(Refused);
      }
      if * {
        return Failure(Faulty);
      }
      var checkpoint: int, content: string, thinking: Option<string> := *, *, *;
      return Success((if checkpoint < 0 then 0 else checkpoint, Message(true, content, thinking)));
    }
  }

  // ---- The council ---------------------------------------------------------------

  /** Every tab points at the context of its own head. */
  ghost predicate AllPointed(idOf: Head -> Id, tabs: seq<Tab>) {
    forall t :: t in tabs ==> t.context == Some(idOf(HeadOf(t)))
  }

  lemma {:induction false} StillPointed(idOf: Head -> Id, tabs: seq<Tab>, i: nat)
    requires AllPointed(idOf, tabs) && i < |tabs|
    ensures AllPointed(idOf, tabs[..i] + tabs[i + 1..])
  {
  }

  function IndexOf(tabs: seq<Tab>, id: nat): (i: nat)
    ensures i <= |tabs| && (i < |tabs| ==> tabs[i].id == id)
  {
    if tabs == [] || tabs[0].id == id then 0 else 1 + IndexOf(tabs[1..], id)
  }

  class Council {
    const daemon: Daemon
    const seeds: seq<Tab>
    var tabs: seq<Tab>
    var decisions: seq<Decision>
    /** Changes since the last backfill. */
    var causes: seq<Cause>
    var spec: nat
    var nextTab: nat
    var nextDecision: nat
    /** Contexts a reset left behind without a delete. */
    ghost var stranded: set<Id>

    /** Between jobs: the tabs' contexts are held, unless a restart forgot them, and
        nothing else is, but for what faults leaked and failed resets stranded. */
    ghost predicate Valid()
      reads this, daemon
    {
      Accounted({})
    }

    /** Within a job: what the job has yet to retire is held too. */
    ghost predicate Accounted(retiring: set<Id>)
      reads this, daemon
    {
      daemon.Valid() && AllPointed(daemon.idOf, tabs)
      && Contexts(tabs) <= daemon.pinned + daemon.forgotten
      && daemon.pinned <= Contexts(tabs) + daemon.leaked + stranded + retiring
    }

    constructor (daemon: Daemon, seeds: seq<Tab>)
      requires daemon.Valid() && daemon.pinned == {}
      ensures Valid() && this.daemon == daemon && tabs == [] && decisions == [] && causes == [] && stranded == {}
    {
      this.daemon, this.seeds := daemon, seeds;
      tabs, decisions, causes, spec, nextTab, nextDecision, stranded := [], [], [], 0, 1, 1, {};
    }

    /** Whatever was lost on the way, the pinned contexts are exactly the tabs' when,
        and only when, every tab's is held and nothing leaked or stranded still is,
        but under a tab. Without faults and failed resets that is always so. */
    lemma {:induction false} PinnedExactly()
      requires Valid()
      ensures daemon.pinned == Contexts(tabs)
        <==> Contexts(tabs) <= daemon.pinned && (daemon.leaked + stranded) * daemon.pinned <= Contexts(tabs)
      ensures daemon.faults == 0 && stranded == {} ==> daemon.pinned == Contexts(tabs)
    {
      hide Contexts;
      assert forall id :: id in daemon.pinned && id !in Contexts(tabs) ==>
        id in (daemon.leaked + stranded) * daemon.pinned;
    }

    /** `pin`: the tab pointed at its head's context, and the old one when another. */
    method Pin(tab: Tab) returns (r: Result<(Tab, Option<Id>), Error>)
      requires daemon.Valid()
      modifies daemon
      ensures daemon.Valid() && daemon.faults >= old(daemon.faults)
      ensures old(daemon.pinned + daemon.forgotten) <= daemon.pinned + daemon.forgotten
      ensures old(daemon.leaked) <= daemon.leaked
      ensures r.Success? ==>
        var id := daemon.idOf(HeadOf(tab));
        r.value.0 == tab.(context := Some(id)) && r.value.1 == (if tab.context == Some(id) then None else tab.context)
        && id in daemon.pinned && daemon.pinned <= old(daemon.pinned) + {id}
      ensures r.Failure? ==> daemon.pinned <= old(daemon.pinned) + daemon.leaked
      ensures daemon.faults == old(daemon.faults) ==>
        daemon.leaked == old(daemon.leaked)
        && daemon.pinned == old(daemon.pinned) + (if r.Success? then {daemon.idOf(HeadOf(tab))} else {})
      ensures daemon.pins == old(daemon.pins) + 1 && daemon.asks == old(daemon.asks)
      ensures daemon.opinions == old(daemon.opinions) && daemon.uploads == old(daemon.uploads)
    {
      var ctx := daemon.Pin(HeadOf(tab));
      if ctx.Failure? {
        return Failure(ctx.error);
      }
      var before := if tab.context == Some(ctx.value) then None else tab.context;
      return Success((tab.(context := Some(ctx.value)), before));
    }

    /** `retire` and `release`: the context goes unless some tab points at it. The
        change it comes after stands whatever the delete answers. */
    method Retire(context: Option<Id>, ghost retiring: set<Id>)
      requires Accounted(retiring + (if context.Some? then {context.value} else {}))
      modifies daemon
      ensures Accounted(retiring) && daemon.faults >= old(daemon.faults) && daemon.asks == old(daemon.asks)
      ensures daemon.faults == old(daemon.faults) ==>
        daemon.pinned == if context.Some? && context.value !in Contexts(tabs) then old(daemon.pinned) - {context.value}
                         else old(daemon.pinned)
    {
      if context.None? {
        return;
      }
      if context.value in Contexts(tabs) {
        return;
      }
      var deleted := daemon.Delete(context.value);
    }

    // ---- Tabs --------------------------------------------------------------------

    /** What every change to the tabs says of itself: refused, it leaves the tabs,
        the causes and (but for a fault) the pins as they were. */
    twostate predicate Undone()
      reads this, daemon
    {
      tabs == old(tabs) && causes == old(causes) && stranded == old(stranded)
      && (daemon.faults == old(daemon.faults) ==> daemon.pinned == old(daemon.pinned))
    }

    /** A change to what a read would ask of notes its cause, so a backfill follows. */
    twostate predicate Noted()
      reads this
    {
      (IdsOf(tabs) == IdsOf(old(tabs)) && causes == old(causes))
      || exists cause :: causes == old(causes) + [cause]
    }

    /** Change a tab, pin its new head, and put it back if the pin fails; then
        retire its old context. */
    method Repin(i: nat, changed: Tab) returns (r: Result<(), Error>)
      requires Valid() && i < |tabs| && changed.context == tabs[i].context
      modifies this`tabs, daemon
      ensures Valid() && daemon.faults >= old(daemon.faults) && daemon.asks == old(daemon.asks)
      ensures r.Failure? ==> Undone()
      ensures r.Success? ==> tabs == old(tabs)[i := changed.(context := Some(daemon.idOf(HeadOf(changed))))]
    {
      hide System, Contexts;
      var saved := tabs[i];
      tabs := tabs[i := changed];
      var pinned := Pin(changed);
      if pinned.Failure? {
        tabs := tabs[i := saved];
        assert tabs == old(tabs);
        return Failure(pinned.error);
      }
      tabs := tabs[i := pinned.value.0];
      assert tabs == old(tabs)[i := pinned.value.0];
      ContextsMoved(old(tabs), i, pinned.value.0);
      Retire(pinned.value.1, {});
      return Success(());
    }

    method SeedTabs(ghost retiring: set<Id>) returns (r: Result<(), Error>)
      requires Accounted(retiring)
      modifies this`tabs, this`nextTab, daemon
      ensures Accounted(retiring) && daemon.faults >= old(daemon.faults)
      ensures daemon.faults == old(daemon.faults) ==>
        daemon.pinned + Contexts(old(tabs)) == old(daemon.pinned) + Contexts(tabs)
      ensures old(tabs) <= tabs && |tabs| <= |old(tabs)| + |seeds|
      ensures r.Success? <==> |tabs| == |old(tabs)| + |seeds|
      ensures forall k :: |old(tabs)| <= k < |tabs| ==> HeadOf(tabs[k]) == HeadOf(seeds[k - |old(tabs)|])
    {
      hide System, Contexts;
      for k := 0 to |seeds|
        invariant Accounted(retiring) && daemon.faults >= old(daemon.faults)
        invariant daemon.faults == old(daemon.faults) ==>
          daemon.pinned + Contexts(old(tabs)) == old(daemon.pinned) + Contexts(tabs)
        invariant old(tabs) <= tabs && |tabs| == |old(tabs)| + k
        invariant forall j :: |old(tabs)| <= j < |tabs| ==> HeadOf(tabs[j]) == HeadOf(seeds[j - |old(tabs)|])
      {
        var tab := seeds[k].(id := nextTab, context := None, chat := None);
        nextTab := nextTab + 1;
        var pinned := Pin(tab);
        if pinned.Failure? {
          return Failure(pinned.error);
        }
        ContextsGrown(tabs, pinned.value.0);
        tabs := tabs + [pinned.value.0];
      }
      return Success(());
    }

    method TabAdd(name: string, preamble: string) returns (r: Result<Tab, Error>)
      requires Valid()
      modifies this`tabs, this`nextTab, this`causes, daemon
      ensures Valid() && daemon.faults >= old(daemon.faults)
      ensures r.Failure? ==> Undone()
      ensures r.Success? ==>
        |old(tabs)| < MAX_TABS && tabs == old(tabs) + [r.value] && Noted()
        && HeadOf(r.value) == Head(System(name, preamble), []) && r.value.included
    {
      hide System;
      if |tabs| >= MAX_TABS {
        return Failure(Refused);
      }
      var tab := Tab(nextTab, name, preamble, true, [], None, None);
      nextTab := nextTab + 1;
      var pinned := Pin(tab);
      if pinned.Failure? {
        return Failure(pinned.error);
      }
      ContextsGrown(tabs, pinned.value.0);
      tabs := tabs + [pinned.value.0];
      causes := causes + [Added];
      return Success(pinned.value.0);
    }

    method TabUpdate(id: nat, name: Option<string>, preamble: Option<string>, included: Option<bool>)
        returns (r: Result<Tab, Error>)
      requires Valid()
      modifies this`tabs, this`causes, daemon
      ensures Valid() && daemon.faults >= old(daemon.faults)
      ensures if r.Failure? then Undone() else Noted()
      ensures r.Success? ==>
        exists i ::
          0 <= i < |old(tabs)| && old(tabs)[i].id == id && tabs == old(tabs)[i := r.value]
          && r.value.name == name.GetOr(old(tabs)[i].name) && r.value.preamble == preamble.GetOr(old(tabs)[i].preamble)
          && r.value.messages == old(tabs)[i].messages && r.value.included == included.GetOr(old(tabs)[i].included)
    {
      hide System, Contexts, IdsOf;
      var i := IndexOf(tabs, id);
      if i == |tabs| {
        return Failure(Missing);
      }
      var saved := tabs[i];
      var changed := saved.(name := name.GetOr(saved.name), preamble := preamble.GetOr(saved.preamble),
                            included := included.GetOr(saved.included));
      var repin := changed.name != saved.name || changed.preamble != saved.preamble;
      if repin {
        var pinned := Repin(i, changed);
        if pinned.Failure? {
          return Failure(pinned.error);
        }
      } else {
        SameContexts(tabs, i, changed);
        tabs := tabs[i := changed];
      }
      SameIds(old(tabs), i, tabs[i]);
      if repin && changed.included {
        causes := causes + [Renamed];
      } else if changed.included != saved.included {
        causes := causes + [Toggled];
      }
      return Success(tabs[i]);
    }

    method TabRemove(id: nat) returns (r: Result<(), Error>)
      requires Valid()
      modifies this`tabs, this`causes, daemon
      ensures Valid() && daemon.faults >= old(daemon.faults)
      ensures if r.Failure? then Undone() else Noted()
      ensures r.Success? ==> exists i :: TakenAt(old(tabs), tabs, i, id)
      ensures r.Success? && daemon.faults == old(daemon.faults) ==>
        daemon.pinned == old(daemon.pinned) - (old(Contexts(tabs)) - Contexts(tabs))
    {
      var i := IndexOf(tabs, id);
      if i == |tabs| {
        return Failure(Missing);
      }
      hide Contexts, IdsOf, Accounted, TakenAt;
      var included := tabs[i].included;
      TakeOut(i);
      TakenIds(old(tabs), tabs, i, id);
      if included {
        causes := causes + [Removed];
      }
      return Success(());
    }

    /** A tab taken out, and its context gone unless another tab holds it. */
    method TakeOut(i: nat)
      requires Valid() && i < |tabs|
      modifies this`tabs, daemon
      ensures Valid() && daemon.faults >= old(daemon.faults) && TakenAt(old(tabs), tabs, i, old(tabs)[i].id)
      ensures daemon.faults == old(daemon.faults) ==>
        daemon.pinned == old(daemon.pinned) - (old(Contexts(tabs)) - Contexts(tabs))
    {
      hide Contexts;
      var tab := tabs[i];
      ContextsRemoved(tabs, i);
      StillPointed(daemon.idOf, tabs, i);
      tabs := tabs[..i] + tabs[i + 1..];
      hide AllPointed;
      Retire(tab.context, {});
    }

    /** `edit_messages`: the tab's messages replaced, or as before. */
    method EditMessages(i: nat, messages: seq<Message>) returns (r: Result<Tab, Error>)
      requires Valid() && i < |tabs|
      modifies this`tabs, this`causes, daemon
      ensures Valid() && daemon.faults >= old(daemon.faults)
      ensures if r.Failure? then Undone() else Noted()
      ensures r.Success? ==>
        tabs == old(tabs)[i := r.value] && r.value.messages == messages
        && r.value == old(tabs)[i].(messages := messages, context := r.value.context)
    {
      var changed := tabs[i].(messages := messages);
      var pinned := Repin(i, changed);
      if pinned.Failure? {
        return Failure(pinned.error);
      }
      SameIds(old(tabs), i, tabs[i]);
      if changed.included {
        causes := causes + [Edited];
      }
      return Success(tabs[i]);
    }

    method MessageAdd(id: nat, assistant: bool, content: string) returns (r: Result<Tab, Error>)
      requires Valid()
      modifies this`tabs, this`causes, daemon
      ensures Valid() && daemon.faults >= old(daemon.faults)
      ensures if r.Failure? then Undone() else Noted()
      ensures r.Success? ==>
        exists i ::
          0 <= i < |old(tabs)| && old(tabs)[i].id == id && tabs == old(tabs)[i := r.value]
          && r.value.messages == old(tabs)[i].messages + [Message(assistant, content, None)]
    {
      var i := IndexOf(tabs, id);
      if i == |tabs| {
        return Failure(Missing);
      }
      if |tabs[i].messages| >= MAX_MESSAGES {
        return Failure(Refused);
      }
      r := EditMessages(i, tabs[i].messages + [Message(assistant, content, None)]);
    }

    /** One message's content replaced; the new message has no thinking. */
    method MessageEdit(id: nat, index: nat, content: string) returns (r: Result<Tab, Error>)
      requires Valid()
      modifies this`tabs, this`causes, daemon
      ensures Valid() && daemon.faults >= old(daemon.faults)
      ensures if r.Failure? then Undone() else Noted()
      ensures r.Success? ==>
        exists i ::
          0 <= i < |old(tabs)| && old(tabs)[i].id == id && index < |old(tabs)[i].messages|
          && tabs == old(tabs)[i := r.value]
          && r.value.messages ==
             old(tabs)[i].messages[index := Message(old(tabs)[i].messages[index].assistant, content, None)]
    {
      var i := IndexOf(tabs, id);
      if i == |tabs| {
        return Failure(Missing);
      }
      if index >= |tabs[i].messages| {
        return Failure(Refused);
      }
      r := EditMessages(i, tabs[i].messages[index := Message(tabs[i].messages[index].assistant, content, None)]);
    }

    method MessageRemove(id: nat, index: nat) returns (r: Result<Tab, Error>)
      requires Valid()
      modifies this`tabs, this`causes, daemon
      ensures Valid() && daemon.faults >= old(daemon.faults)
      ensures if r.Failure? then Undone() else Noted()
      ensures r.Success? ==>
        exists i ::
          0 <= i < |old(tabs)| && old(tabs)[i].id == id && index < |old(tabs)[i].messages|
          && tabs == old(tabs)[i := r.value]
          && r.value.messages == old(tabs)[i].messages[..index] + old(tabs)[i].messages[index + 1..]
    {
      var i := IndexOf(tabs, id);
      if i == |tabs| {
        return Failure(Missing);
      }
      if index >= |tabs[i].messages| {
        return Failure(Refused);
      }
      r := EditMessages(i, tabs[i].messages[..index] + tabs[i].messages[index + 1..]);
    }

    // ---- System 2 in a tab ---------------------------------------------------------

    /** What may stay of a failed ask: a tab that forgot a chat the daemon no longer
        holds. */
    twostate predicate AskUndone()
      reads this, daemon
    {
      causes == old(causes) && (daemon.faults == old(daemon.faults) ==> daemon.pinned == old(daemon.pinned))
      && (tabs == old(tabs) || exists i :: 0 <= i < |old(tabs)| && tabs == old(tabs)[i := old(tabs)[i].(chat := None)])
    }

    /** `do_ask`: the question and the reply join the tab, or neither does. */
    method Ask(id: nat, text: string) returns (r: Result<(), Error>)
      requires Valid()
      modifies this`tabs, this`causes, daemon
      ensures Valid() && daemon.faults >= old(daemon.faults)
      ensures if r.Failure? then AskUndone() else Noted()
      ensures r.Success? ==>
        exists i, reply, checkpoint :: AnsweredAt(old(tabs), tabs, i, id, text, reply, checkpoint)
      ensures daemon.asks == old(daemon.asks)
        || exists i, sent :: AskedAt(old(tabs), i, id, text, sent) && daemon.asks == old(daemon.asks) + [sent]
      ensures r.Success? ==> |daemon.asks| == |old(daemon.asks)| + 1
    {
      var i := IndexOf(tabs, id);
      if i == |tabs| {
        return Failure(Missing);
      }
      if |tabs[i].messages| + 2 > MAX_MESSAGES {
        return Failure(Refused);
      }
      var route := AskRoute(tabs[i]);
      if route.Failure? {
        return Failure(route.error);
      }
      var stopped: bool := *;
      if stopped {
        return Failure(Faulty);
      }
      r := AskIn(i, text, route.value);
    }

    /** `ask_in`. */
    method AskIn(i: nat, text: string, route: Route) returns (r: Result<(), Error>)
      requires Valid() && i < |tabs| && AskRoute(tabs[i]) == Success(route)
      modifies this`tabs, this`causes, daemon
      ensures Valid() && daemon.faults >= old(daemon.faults)
      ensures if r.Failure? then AskUndone() else Noted()
      ensures r.Success? ==>
        exists reply, checkpoint :: AnsweredAt(old(tabs), tabs, i, old(tabs[i].id), text, reply, checkpoint)
      ensures
        exists sent :: AskedAt(old(tabs), i, old(tabs[i].id), text, sent) && daemon.asks == old(daemon.asks) + [sent]
    {
      hide Contexts, AskedAt;
      var tab := tabs[i];
      var question := Message(false, text, None);
      var sent := route.(messages := route.messages + [question]);
      SentIsWhole(tabs, i, text, route, sent);
      var done := daemon.Chat(sent);
      if done.Failure? {
        if done.error.ContextGone? && route.Continue? {
          SameContexts(tabs, i, tab.(chat := None));
          tabs := tabs[i := tab.(chat := None)];
          return Failure(Refused);
        }
        return Failure(done.error);
      }
      var (checkpoint, reply) := done.value;
      var after := tab.messages + [question, reply];
      var head := HeadOf(tab);
      var answered := tab.(messages := after, chat := Some(ChatRef(checkpoint, Head(head.system, after))));
      var pinned := Repin(i, answered);
      if pinned.Failure? {
        return Failure(pinned.error);
      }
      SameIds(old(tabs), i, tabs[i]);
      if tab.included {
        causes := causes + [AskedIn];
      }
      RouteAfterReply(tab, tabs[i], question, reply, checkpoint);
      assert AnsweredAt(old(tabs), tabs, i, tab.id, text, reply, checkpoint);
      return Success(());
    }

    // ---- Reads ---------------------------------------------------------------------

    /** `repin_all`: no tab's id changes. */
    method RepinAll() returns (r: Result<(), Error>)
      requires Valid()
      modifies daemon
      ensures Valid() && daemon.faults >= old(daemon.faults)
      ensures r.Success? && daemon.faults == old(daemon.faults) ==> Contexts(tabs) <= daemon.pinned
      ensures r.Success? && daemon.faults == old(daemon.faults) && old(daemon.leaked) + stranded <= Contexts(tabs) ==>
        daemon.pinned == Contexts(tabs)
      ensures Contexts(tabs) <= old(daemon.pinned) && daemon.faults == old(daemon.faults) ==>
        daemon.pinned == old(daemon.pinned)
      ensures old(daemon.pins) <= daemon.pins <= old(daemon.pins) + |tabs|
      ensures daemon.opinions == old(daemon.opinions) && daemon.uploads == old(daemon.uploads)
    {
      hide System;
      for i := 0 to |tabs|
        invariant Valid() && daemon.faults >= old(daemon.faults)
        invariant daemon.pins == old(daemon.pins) + i
        invariant daemon.opinions == old(daemon.opinions) && daemon.uploads == old(daemon.uploads)
        invariant daemon.faults == old(daemon.faults) ==>
          daemon.leaked == old(daemon.leaked) && forall j :: 0 <= j < i ==> tabs[j].context.value in daemon.pinned
        invariant Contexts(tabs) <= old(daemon.pinned) && daemon.faults == old(daemon.faults) ==>
          daemon.pinned == old(daemon.pinned)
      {
        assert tabs[i] in tabs && tabs[i].context.value in Contexts(tabs);
        var pinned := Pin(tabs[i]);
        if pinned.Failure? {
          return Failure(pinned.error);
        }
        assert pinned.value == (tabs[i], None);
      }
      return Success(());
    }

    /** `included`: the contexts of the included tabs, at least one and distinct. */
    method Included() returns (r: Result<seq<Id>, Error>)
      requires Valid()
      ensures r == IncludedIds(tabs)
    {
      var ids: seq<Id> := [];
      for i := 0 to |tabs|
        invariant ids == IdsOf(tabs[..i])
      {
        assert tabs[..i + 1][..i] == tabs[..i];
        if tabs[i].included && tabs[i].context.Some? {
          ids := ids + [tabs[i].context.value];
        }
      }
      assert tabs[..|tabs|] == tabs;
      if ids == [] || Twice(ids) {
        return Failure(Refused);
      }
      return Success(ids);
    }

    /** `read_one`: the tabs are pinned again, or the specs uploaded again, when the
        daemon says it lost them, neither twice for one read; contexts that are held
        are not pinned again. */
    method ReadOne(action: string, ids: seq<Id>) returns (r: Result<Read, Error>)
      requires Valid()
      modifies daemon
      ensures Valid() && daemon.faults >= old(daemon.faults)
      ensures r.Success? ==> r.value.contexts == ids && r.value.spec == spec
      ensures old(daemon.opinions) < daemon.opinions <= old(daemon.opinions) + 3
      ensures daemon.pins <= old(daemon.pins) + |tabs| && daemon.uploads <= old(daemon.uploads) + 1
      ensures daemon.faults == old(daemon.faults) && (forall id :: id in ids ==> id in old(daemon.pinned)) ==>
        daemon.pins == old(daemon.pins) && daemon.pinned == old(daemon.pinned)
    {
      hide Accounted;
      var repinned, uploaded := false, false;
      while true
        invariant Valid() && daemon.faults >= old(daemon.faults)
        invariant daemon.opinions == old(daemon.opinions) + (if repinned then 1 else 0) + (if uploaded then 1 else 0)
        invariant old(daemon.pins) <= daemon.pins <= old(daemon.pins) + (if repinned then |tabs| else 0)
        invariant daemon.uploads == old(daemon.uploads) + (if uploaded then 1 else 0)
        invariant daemon.faults == old(daemon.faults) && (forall id :: id in ids ==> id in old(daemon.pinned)) ==>
          daemon.pins == old(daemon.pins) && daemon.pinned == old(daemon.pinned)
        decreases !repinned, !uploaded
      {
        DaemonValid({});
        label before:
        var read := daemon.Opinion(action, ids, spec);
        AfterLook@before({});
        if read.Success? {
          return read;
        }
        if read.error.ContextGone? && !repinned {
          repinned := true;
          var again := RepinAll();
          if again.Failure? {
            return Failure(again.error);
          }
        } else if read.error.SpecGone? && !uploaded {
          uploaded := true;
          label again:
          var upload := daemon.Upload();
          AfterLook@again({});
          if upload.Failure? {
            return Failure(upload.error);
          }
        } else {
          return Failure(read.error);
        }
      }
    }

    lemma {:induction false} DaemonValid(retiring: set<Id>)
      requires Accounted(retiring)
      ensures daemon.Valid()
    {
    }

    /** A call that neither pins nor deletes leaves the account as it was. */
    twostate lemma AfterLook(retiring: set<Id>)
      requires old(Accounted(retiring)) && daemon.Looked()
      requires tabs == old(tabs) && stranded == old(stranded)
      ensures Accounted(retiring)
    {
      hide Contexts;
    }

    method Decide(action: string) returns (r: Result<Decision, Error>)
      requires Valid()
      modifies this`decisions, this`nextDecision, daemon
      ensures Valid() && daemon.faults >= old(daemon.faults)
      ensures r.Failure? ==> decisions == old(decisions)
      ensures r.Success? ==>
        decisions == Last(old(decisions) + [r.value], MAX_DECISIONS)
        && IncludedIds(tabs) == Success(r.value.read.contexts) && r.value.read.spec == spec
        && r.value.n == old(nextDecision) && nextDecision == old(nextDecision) + 1 && r.value.action == action
    {
      var ids := Included();
      if ids.Failure? {
        return Failure(ids.error);
      }
      var read := ReadOne(action, ids.value);
      if read.Failure? {
        return Failure(read.error);
      }
      var d := Decision(nextDecision, action, read.value, [], None);
      nextDecision := nextDecision + 1;
      decisions := Last(decisions + [d], MAX_DECISIONS);
      return Success(d);
    }

    /** `do_backfill`: the last decisions read again under the contexts and the spec
        of now, all of them or none. A failed one changes no decision and keeps
        every cause; one with no tab included, or two included tabs of one context,
        reads nothing and drops them. */
    method Backfill() returns (r: Result<nat, Error>)
      requires Valid()
      modifies this`decisions, this`causes, daemon
      ensures Valid() && daemon.faults >= old(daemon.faults)
      ensures r.Failure? ==> decisions == old(decisions) && causes == old(causes)
      ensures r.Success? ==> causes == []
      ensures r.Success? && (old(causes) == [] || IncludedIds(tabs).Failure?) ==> decisions == old(decisions)
      ensures r.Success? && old(causes) != [] && IncludedIds(tabs).Success? ==>
        Refreshed(old(decisions), decisions, IncludedIds(tabs).value, spec, old(causes)[|old(causes)| - 1])
    {
      hide Contexts, AllPointed;
      var taken := causes;
      causes := [];
      if taken == [] {
        return Success(0);
      }
      var ids := Included();
      if ids.Failure? {
        return Success(0);
      }
      var first := if |decisions| > BACKFILL_K then |decisions| - BACKFILL_K else 0;
      var after: seq<Decision> := decisions[..first];
      var reread := 0;
      for i := first to |decisions|
        invariant Valid() && daemon.faults >= old(daemon.faults) && |after| == i
        invariant decisions == old(decisions) && causes == []
        invariant RefreshedTo(decisions, after, i, ids.value, spec, taken[|taken| - 1])
      {
        var d := decisions[i];
        if d.read.contexts != ids.value || d.read.spec != spec {
          var read := ReadOne(d.action, ids.value);
          if read.Failure? {
            causes := taken + causes;
            return Failure(read.error);
          }
          d := Reread(d, read.value, taken[|taken| - 1]);
          reread := reread + 1;
        }
        after := after + [d];
      }
      decisions := after;
      return Success(reread);
    }

    method SpecSwitch(to: nat)
      requires Valid()
      modifies this`spec, this`causes
      ensures Valid() && spec == to && causes == if to == old(spec) then old(causes) else old(causes) + [SpecChanged]
    {
      if to != spec {
        spec := to;
        causes := causes + [SpecChanged];
      }
    }

    /** `do_reset`: back to the seeds. When seeding fails the old contexts are never
        retired: with `|tabs|` seeds pinned before the failure, nothing stays pinned
        for no tab exactly when every old context is one of those seeds' own
        (`FailureStrands` says it of what a caller knows before). */
    method Reset() returns (r: Result<(), Error>)
      requires Valid()
      modifies this`tabs, this`decisions, this`causes, this`spec, this`nextTab, this`stranded, daemon
      ensures Valid() && daemon.faults >= old(daemon.faults) && decisions == [] && causes == [] && spec == 0
      ensures r.Success? ==> |tabs| == |seeds| && stranded == old(stranded)
      ensures r.Failure? && daemon.faults == old(daemon.faults) && old(daemon.pinned == Contexts(tabs)) ==>
        |tabs| < |seeds|
        && (daemon.pinned == Contexts(tabs) <==> old(Contexts(tabs)) <= SeedIds(daemon.idOf, seeds[..|tabs|]))
    {
      hide System, Contexts;
      var before := tabs;
      ghost var was := Contexts(tabs);
      NoContexts();
      tabs, decisions, causes, spec := [], [], [], 0;
      r := SeedTabs(was);
      if r.Failure? {
        SeededContexts(daemon.idOf, tabs, seeds[..|tabs|]);
        stranded := stranded + was;
        return;
      }
      for i := 0 to |before|
        modifies daemon
        invariant Accounted(Contexts(before[i..])) && daemon.faults >= old(daemon.faults)
      {
        ContextsSplit(before, i);
        if before[i].context.Some? && before[i].context.value !in Contexts(before[i + 1..]) {
          Retire(before[i].context, Contexts(before[i + 1..]));
        }
      }
      assert before[|before|..] == [];
      NoContexts();
    }
  }

  /** The contexts a list of seeds is pinned under. */
  ghost function SeedIds(idOf: Head -> Id, seeds: seq<Tab>): set<Id> {
    set t | t in seeds :: idOf(HeadOf(t))
  }

  /** Seeding may fail at any seed. No failure leaves an old context behind exactly
      when there is none, and some failure does not exactly when all but the last
      seed cover them. */
  lemma {:induction false} FailureStrands(idOf: Head -> Id, seeds: seq<Tab>, was: set<Id>)
    requires seeds != []
    ensures (forall n :: 0 <= n < |seeds| ==> was <= SeedIds(idOf, seeds[..n])) <==> was == {}
    ensures (exists n :: 0 <= n < |seeds| && was <= SeedIds(idOf, seeds[..n]))
      <==> was <= SeedIds(idOf, seeds[..|seeds| - 1])
  {
    assert SeedIds(idOf, seeds[..0]) == {};
    forall n | 0 <= n < |seeds|
      ensures SeedIds(idOf, seeds[..n]) <= SeedIds(idOf, seeds[..|seeds| - 1])
    {
      assert seeds[..|seeds| - 1][..n] == seeds[..n];
      forall t | t in seeds[..n]
        ensures t in seeds[..|seeds| - 1]
      {
        var k :| 0 <= k < n && seeds[..n][k] == t;
        assert seeds[..|seeds| - 1][k] == t;
      }
    }
  }

  /** A council at its two seeds, reset when the daemon refuses the second: that
      seed's context stays pinned for no tab. */
  lemma {:induction false} ResetStrands(first: Tab, second: Tab, idOf: Head -> Id)
    requires first == Tab(1, "a", "", true, [], Some(1), None) && second == Tab(2, "bb", "", true, [], Some(2), None)
    requires forall h: Head :: idOf(h) == |h.system|
    ensures var tabs := [first, second];
      AllPointed(idOf, tabs) && Contexts(tabs) == SeedIds(idOf, tabs) == {1, 2}
      && SeedIds(idOf, tabs[..1]) == {1} && !(Contexts(tabs) <= SeedIds(idOf, tabs[..1]))
  {
    var tabs := [first, second];
    assert tabs[0] in tabs && tabs[1] in tabs && tabs[..1] == [first] && first in [first];
    SeededContexts(idOf, tabs, tabs);
  }

  lemma {:induction false} SeededContexts(idOf: Head -> Id, tabs: seq<Tab>, seeds: seq<Tab>)
    requires AllPointed(idOf, tabs) && |tabs| == |seeds|
    requires forall k :: 0 <= k < |tabs| ==> HeadOf(tabs[k]) == HeadOf(seeds[k])
    ensures Contexts(tabs) == SeedIds(idOf, seeds)
  {
    forall t | t in tabs
      ensures t.context.Some? && t.context.value in SeedIds(idOf, seeds)
    {
      var k :| 0 <= k < |tabs| && tabs[k] == t;
      assert seeds[k] in seeds;
    }
    forall t | t in seeds
      ensures idOf(HeadOf(t)) in Contexts(tabs)
    {
      var k :| 0 <= k < |seeds| && seeds[k] == t;
      assert tabs[k] in tabs;
    }
  }

  // ---- Routes, reads and decisions -----------------------------------------------------

  /** How an ask reaches the chat: a fresh one, or the one that wrote the replies. */
  datatype Route = Fresh(system: string, messages: seq<Message>) | Continue(from: Id, messages: seq<Message>)

  predicate HasReply(messages: seq<Message>) {
    exists m :: m in messages && m.assistant
  }

  function AskRoute(t: Tab): Result<Route, Error> {
    if !HasReply(t.messages) then Success(Fresh(HeadOf(t).system, t.messages))
    else if t.chat.Some? && t.chat.value.head.system == HeadOf(t).system
            && t.chat.value.head.messages <= t.messages && !HasReply(t.messages[|t.chat.value.head.messages|..]) then
      Success(Continue(t.chat.value.checkpoint, t.messages[|t.chat.value.head.messages|..]))
    else Failure(Refused)
  }

  /** One tab gained the question and the reply, and its next ask goes to the chat
      the reply came from. */
  ghost predicate AnsweredAt(
      before: seq<Tab>, after: seq<Tab>, i: nat, id: nat, text: string, reply: Message, checkpoint: Id) {
    i < |before| && |after| == |before| && before[i].id == id && reply.assistant && after == before[i := after[i]]
    && after[i].messages == before[i].messages + [Message(false, text, None), reply]
    && AskRoute(before[i]).Success? && AskRoute(after[i]) == Success(Continue(checkpoint, []))
  }

  /** What an ask of a tab sends: the whole of the tab and the question, as text where
      the chat does not hold it, and never a reply. */
  ghost predicate AskedAt(tabs: seq<Tab>, i: nat, id: nat, text: string, sent: Route) {
    i < |tabs| && tabs[i].id == id && !HasReply(sent.messages)
    && var whole := Head(System(tabs[i].name, tabs[i].preamble), tabs[i].messages + [Message(false, text, None)]);
       match sent
       case Fresh(system, messages) => Head(system, messages) == whole
       case Continue(from, messages) =>
         tabs[i].chat.Some? && from == tabs[i].chat.value.checkpoint
         && Head(tabs[i].chat.value.head.system, tabs[i].chat.value.head.messages + messages) == whole
  }

  lemma {:induction false} SentIsWhole(tabs: seq<Tab>, i: nat, text: string, route: Route, sent: Route)
    requires i < |tabs| && AskRoute(tabs[i]) == Success(route)
    requires sent == route.(messages := route.messages + [Message(false, text, None)])
    ensures AskedAt(tabs, i, tabs[i].id, text, sent)
  {
    RouteIsWhole(tabs[i]);
    var question := Message(false, text, None);
    assert forall m :: m in sent.messages ==> m in route.messages || m == question;
    if route.Continue? {
      var held := tabs[i].chat.value.head.messages;
      assert held + (route.messages + [question]) == held + route.messages + [question];
    }
    hide AskRoute;
  }

  /** An ask is routed exactly when every reply in the tab is one that the chat it
      would continue holds, word for word, with all before it. */
  lemma {:induction false} RoutedWhenHeld(t: Tab)
    ensures AskRoute(t).Success?
      <==> forall k :: 0 <= k < |t.messages| && t.messages[k].assistant ==>
             t.chat.Some? && t.chat.value.head.system == System(t.name, t.preamble)
             && k < |t.chat.value.head.messages| && t.chat.value.head.messages <= t.messages
  {
    if HasReply(t.messages) {
      var m :| m in t.messages && m.assistant;
      var k :| 0 <= k < |t.messages| && t.messages[k] == m;
      if t.chat.Some? && t.chat.value.head.messages <= t.messages {
        var n := |t.chat.value.head.messages|;
        assert forall j :: n <= j < |t.messages| ==> t.messages[n..][j - n] == t.messages[j];
      }
    }
  }

  lemma {:induction false} RouteAfterReply(tab: Tab, answered: Tab, question: Message, reply: Message, checkpoint: Id)
    requires reply.assistant && answered.messages == tab.messages + [question, reply]
    requires answered.chat == Some(ChatRef(checkpoint, HeadOf(answered)))
    ensures AskRoute(answered) == Success(Continue(checkpoint, []))
  {
    assert reply in answered.messages && answered.messages[|answered.messages|..] == [];
  }

  /** An ask never sends a reply back as text, and what it sends, after what the
      chat it continues held, is exactly the tab. */
  lemma {:induction false} RouteIsWhole(t: Tab)
    ensures AskRoute(t).Success? ==> !HasReply(AskRoute(t).value.messages)
    ensures AskRoute(t).Success? && AskRoute(t).value.Fresh? ==>
      Head(AskRoute(t).value.system, AskRoute(t).value.messages) == HeadOf(t)
    ensures AskRoute(t).Success? && AskRoute(t).value.Continue? ==>
      t.chat.Some? && AskRoute(t).value.from == t.chat.value.checkpoint
      && Head(t.chat.value.head.system, t.chat.value.head.messages + AskRoute(t).value.messages) == HeadOf(t)
  {
  }

  /** The contexts of the included tabs, in tab order. */
  function IdsOf(tabs: seq<Tab>): seq<Id> {
    if tabs == [] then []
    else
      var t := tabs[|tabs| - 1];
      IdsOf(tabs[..|tabs| - 1]) + Asks(t)
  }

  function Asks(t: Tab): seq<Id> {
    if t.included && t.context.Some? then [t.context.value] else []
  }

  /** A tab that is not read, before or after, changes nothing of what is. */
  lemma {:induction false} SameIds(tabs: seq<Tab>, i: nat, t: Tab)
    requires i < |tabs|
    ensures Asks(t) == Asks(tabs[i]) ==> IdsOf(tabs[i := t]) == IdsOf(tabs)
    decreases |tabs|
  {
    var n := |tabs| - 1;
    if i < n {
      SameIds(tabs[..n], i, t);
      assert tabs[i := t][..n] == tabs[..n][i := t];
    } else {
      assert tabs[i := t][..n] == tabs[..n];
    }
  }

  /** One tab is gone, the others in their order. */
  ghost predicate TakenAt(before: seq<Tab>, after: seq<Tab>, i: nat, id: nat) {
    i < |before| && before[i].id == id && after == before[..i] + before[i + 1..]
  }

  lemma {:induction false} TakenIds(before: seq<Tab>, after: seq<Tab>, i: nat, id: nat)
    requires TakenAt(before, after, i, id)
    ensures !before[i].included ==> IdsOf(after) == IdsOf(before)
  {
    hide IdsOf;
    RemovedIds(before, i);
  }

  lemma {:induction false} RemovedIds(tabs: seq<Tab>, i: nat)
    requires i < |tabs|
    ensures Asks(tabs[i]) == [] ==> IdsOf(tabs[..i] + tabs[i + 1..]) == IdsOf(tabs)
    decreases |tabs|
  {
    hide Asks;
    var n, left := |tabs| - 1, tabs[..i] + tabs[i + 1..];
    if i < n {
      RemovedIds(tabs[..n], i);
      assert left[..n - 1] == tabs[..n][..i] + tabs[..n][i + 1..];
      assert left[n - 1] == tabs[n];
    } else {
      assert left == tabs[..n];
    }
  }

  function IncludedIds(tabs: seq<Tab>): Result<seq<Id>, Error> {
    var ids := IdsOf(tabs);
    if ids == [] || Twice(ids) then Failure(Refused) else Success(ids)
  }

  predicate Twice(ids: seq<Id>) {
    exists i, j :: 0 <= i < j < |ids| && ids[i] == ids[j]
  }

  /** What is read keeps to the tabs' order. */
  lemma {:induction false} IdsInOrder(a: seq<Tab>, b: seq<Tab>)
    ensures IdsOf(a + b) == IdsOf(a) + IdsOf(b)
    decreases |b|
  {
    if b == [] {
      assert a + b == a && IdsOf(a) + IdsOf(b) == IdsOf(a);
    } else {
      var n := |b| - 1;
      var t := b[n];
      IdsInOrder(a, b[..n]);
      assert a + b == (a + b[..n]) + [t] && b == b[..n] + [t];
      hide IdsOf, Asks;
      IdsSnoc(a + b[..n], t);
      IdsSnoc(b[..n], t);
      Assoc(IdsOf(a), IdsOf(b[..n]), Asks(t));
    }
  }

  /** And is exactly the included tabs' contexts. */
  lemma {:induction false} IdsAreIncluded(tabs: seq<Tab>, id: Id)
    ensures id in IdsOf(tabs) <==> exists t :: t in tabs && t.included && t.context == Some(id)
  {
    if tabs != [] {
      var before, t := tabs[..|tabs| - 1], tabs[|tabs| - 1];
      IdsAreIncluded(before, id);
      assert tabs == before + [t];
      IdsSnoc(before, t);
      hide IdsOf;
    }
  }

  lemma {:induction false} Assoc(a: seq<Id>, b: seq<Id>, c: seq<Id>)
    ensures (a + b) + c == a + (b + c)
  {
  }

  /** A read is refused exactly when no tab is included or two included ones hold one
      context. */
  lemma {:induction false} RefusedToRead(idOf: Head -> Id, tabs: seq<Tab>)
    requires AllPointed(idOf, tabs)
    ensures IncludedIds(tabs).Failure? <==> (forall t :: t in tabs ==> !t.included) || Shared(tabs)
    ensures IncludedIds(tabs).Success? ==> IncludedIds(tabs).value == IdsOf(tabs)
  {
    hide IdsOf, Shared, Twice;
    SharedIds(idOf, tabs);
    if t :| t in tabs && t.included {
      IdsAreIncluded(tabs, t.context.value);
    }
    if IdsOf(tabs) != [] {
      IdsAreIncluded(tabs, IdsOf(tabs)[0]);
    }
  }

  ghost predicate Shared(tabs: seq<Tab>) {
    exists i, j ::
      0 <= i < j < |tabs| && tabs[i].included && tabs[j].included && tabs[i].context == tabs[j].context
  }

  lemma {:induction false} SharedIds(idOf: Head -> Id, tabs: seq<Tab>)
    requires AllPointed(idOf, tabs)
    ensures Twice(IdsOf(tabs)) <==> Shared(tabs)
  {
    if tabs == [] {
      return;
    }
    var before, t := tabs[..|tabs| - 1], tabs[|tabs| - 1];
    assert tabs == before + [t] && t in tabs && t.context.Some? && forall x :: x in before ==> x in tabs;
    SharedIds(idOf, before);
    IdsAreIncluded(before, t.context.value);
    hide AllPointed, IdsOf, Twice, Shared;
    IdsSnoc(before, t);
    TwiceSnoc(IdsOf(before), t.context.value);
    SharedSnoc(before, t);
  }

  lemma {:induction false} IdsSnoc(tabs: seq<Tab>, t: Tab)
    ensures IdsOf(tabs + [t]) == IdsOf(tabs) + Asks(t)
  {
    assert (tabs + [t])[..|tabs|] == tabs;
  }

  lemma {:induction false} TwiceSnoc(ids: seq<Id>, id: Id)
    ensures Twice(ids + [id]) <==> Twice(ids) || id in ids
    ensures Twice(ids + []) <==> Twice(ids)
  {
    var after := ids + [id];
    assert ids + [] == ids;
    if Twice(ids) {
      var i, j :| 0 <= i < j < |ids| && ids[i] == ids[j];
      assert after[i] == after[j];
    }
    if k :| 0 <= k < |ids| && ids[k] == id {
      assert after[k] == after[|ids|];
    }
  }

  lemma {:induction false} SharedSnoc(tabs: seq<Tab>, t: Tab)
    ensures Shared(tabs + [t])
      <==> Shared(tabs) || (t.included && exists x :: x in tabs && x.included && x.context == t.context)
  {
    var after := tabs + [t];
    if Shared(tabs) {
      var i, j :| 0 <= i < j < |tabs| && tabs[i].included && tabs[j].included && tabs[i].context == tabs[j].context;
      assert after[i] == tabs[i] && after[j] == tabs[j];
    }
    if x :| t.included && x in tabs && x.included && x.context == t.context {
      var k :| 0 <= k < |tabs| && tabs[k] == x;
      assert after[k] == x && after[|tabs|] == t;
    }
  }

  function Last<T>(s: seq<T>, n: nat): (r: seq<T>)
    ensures |r| == (if |s| < n then |s| else n) && forall i :: 0 <= i < |r| ==> r[i] == s[|s| - |r| + i]
  {
    if |s| > n then s[|s| - n..] else s
  }

  function Reread(d: Decision, read: Read, cause: Cause): Decision {
    d.(read := read, history := Last(d.history + [d.read], HISTORY),
       flip := if d.read.verdict != read.verdict then Some(Flip(d.read.verdict, read.verdict, cause)) else None)
  }

  /** A recent decision stands under these contexts and this spec: as it was, or
      read again with its old read kept and its flip marked. */
  ghost predicate Standing(before: Decision, after: Decision, ids: seq<Id>, spec: nat, cause: Cause) {
    after.read.contexts == ids && after.read.spec == spec
    && after == if before.read.contexts == ids && before.read.spec == spec then before
                else Reread(before, after.read, cause)
  }

  ghost predicate RefreshedTo(
      before: seq<Decision>, after: seq<Decision>, n: nat, ids: seq<Id>, spec: nat, cause: Cause) {
    n <= |before| && n <= |after|
    && forall i :: 0 <= i < n ==>
      if i + BACKFILL_K < |before| then after[i] == before[i] else Standing(before[i], after[i], ids, spec, cause)
  }

  ghost predicate Refreshed(before: seq<Decision>, after: seq<Decision>, ids: seq<Id>, spec: nat, cause: Cause) {
    |after| == |before| && RefreshedTo(before, after, |before|, ids, spec, cause)
  }

  lemma {:induction false} NoContexts()
    ensures Contexts([]) == {}
  {
  }

  lemma {:induction false} ContextsSplit(tabs: seq<Tab>, i: nat)
    requires i < |tabs|
    ensures Contexts(tabs[i..])
      == (if tabs[i].context.Some? then {tabs[i].context.value} else {}) + Contexts(tabs[i + 1..])
  {
    assert tabs[i..] == [tabs[i]] + tabs[i + 1..];
  }

  // ---- Lemmas behind the tabs --------------------------------------------------------

  lemma {:induction false} ContextsMoved(tabs: seq<Tab>, i: nat, t: Tab)
    requires i < |tabs| && t.context.Some?
    ensures Contexts(tabs[i := t]) <= Contexts(tabs) + {t.context.value}
    ensures t.context.value in Contexts(tabs[i := t])
    ensures Contexts(tabs) <= Contexts(tabs[i := t]) + (if tabs[i].context.Some? then {tabs[i].context.value} else {})
  {
    var after := tabs[i := t];
    assert t in after by {
      assert after[i] == t;
    }
    forall c | c in Contexts(tabs) && tabs[i].context != Some(c)
      ensures c in Contexts(after)
    {
      var x :| x in tabs && x.context == Some(c);
      var j :| 0 <= j < |tabs| && tabs[j] == x;
      assert after[j] == x;
    }
  }

  lemma {:induction false} SameContexts(tabs: seq<Tab>, i: nat, t: Tab)
    requires i < |tabs| && t.context == tabs[i].context && t.context.Some?
    ensures Contexts(tabs[i := t]) == Contexts(tabs)
  {
    ContextsMoved(tabs, i, t);
    assert tabs[i] in tabs;
  }

  lemma {:induction false} ContextsGrown(tabs: seq<Tab>, t: Tab)
    requires t.context.Some?
    ensures Contexts(tabs + [t]) == Contexts(tabs) + {t.context.value}
  {
    assert t in tabs + [t];
    forall c | c in Contexts(tabs)
      ensures c in Contexts(tabs + [t])
    {
      var x :| x in tabs && x.context == Some(c);
      assert x in tabs + [t];
    }
  }

  lemma {:induction false} ContextsRemoved(tabs: seq<Tab>, i: nat)
    requires i < |tabs|
    ensures var left := tabs[..i] + tabs[i + 1..];
      Contexts(left) <= Contexts(tabs)
      && Contexts(tabs) <= Contexts(left) + (if tabs[i].context.Some? then {tabs[i].context.value} else {})
    ensures tabs[i].context.Some? ==> tabs[i].context.value in Contexts(tabs)
  {
    assert tabs[i] in tabs;
    var left := tabs[..i] + tabs[i + 1..];
    assert tabs == tabs[..i] + [tabs[i]] + tabs[i + 1..];
    forall c | c in Contexts(tabs) && tabs[i].context != Some(c)
      ensures c in Contexts(left)
    {
      var x :| x in tabs && x.context == Some(c);
      assert x in left;
    }
  }
}
