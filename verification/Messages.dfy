/** The optimistic message list of a channel: sends append a pending message, confirmations replace it by
    id, and received messages are appended. */
module Messages {
  import opened Common
  import opened Numerals

  datatype Message = Message(id: string, senderId: Id, content: string)

  const PENDING: string := "pending-"

  function PendingId(length: nat): string {
    PENDING + Numeral(length, Decimal)
  }

  /** Ids the server gives are uuids, which never look like this. */
  predicate IsPending(id: string) {
    |id| >= |PENDING| && id[..|PENDING|] == PENDING
  }

  lemma PendingIdsAreInjective(m: nat, n: nat)
    ensures IsPending(PendingId(m)) && (PendingId(m) == PendingId(n) ==> m == n)
  {
    assert PendingId(m)[|PENDING|..] == Numeral(m, Decimal) && PendingId(n)[|PENDING|..] == Numeral(n, Decimal);
    if PendingId(m) == PendingId(n) { NumeralIsInjective(m, n, Decimal); }
  }

  // ---------- the cache updaters ----------

  function Optimistic(cache: seq<Message>, senderId: Id, content: string): Message {
    Message(PendingId(|cache|), senderId, content)
  }

  /** `[...old].map(m => m.id === optimisticMessage.id ? response.data : m)` */
  function Confirmed(cache: seq<Message>, id: string, m: Message): seq<Message> {
    seq(|cache|, i requires 0 <= i < |cache| => if cache[i].id == id then m else cache[i])
  }

  /** The update a confirmation makes; a cache that was never filled becomes empty. */
  function Answered(cache: Option<seq<Message>>, id: string, m: Message): seq<Message> {
    if cache.None? then [] else Confirmed(cache.value, id, m)
  }

  /** A cache that was never filled becomes empty, and the message is lost. */
  function Received(cache: Option<seq<Message>>, m: Message): seq<Message> {
    if cache.None? then [] else cache.value + [m]
  }

  // ---------- runs ----------

  /** `sends` are the optimistic messages in the order they were created, each the context of its own
      mutation; `answered` are those whose confirmation has arrived. */
  datatype State = State(cache: Option<seq<Message>>, sends: seq<Message>, answered: set<nat>)

  /** `Fetch` is the moment the answer of a fetch arrives and replaces whatever the cache holds. */
  datatype Action =
    | Fetch(history: seq<Message>)
    | Send(senderId: Id, content: string)
    | Confirm(send: nat, response: Message)
    | Receive(message: Message)

  predicate Enabled(s: State, a: Action) {
    match a
    case Fetch(history) => forall i :: 0 <= i < |history| ==> !IsPending(history[i].id)
    case Send(_, _) => true
    case Confirm(n, m) => n < |s.sends| && n !in s.answered && !IsPending(m.id)
    case Receive(m) => !IsPending(m.id)
  }

  /** A send before the list is there throws, since it asks for the list's length, and sends nothing. */
  function Step(s: State, a: Action): State {
    match a
    case Fetch(history) => s.(cache := Some(history))
    case Send(u, content) =>
      if s.cache.None? then s
      else
        var m := Optimistic(s.cache.value, u, content);
        s.(cache := Some(s.cache.value + [m]), sends := s.sends + [m])
    case Confirm(n, m) =>
      if n >= |s.sends| then s
      else s.(cache := Some(Answered(s.cache, s.sends[n].id, m)), answered := s.answered + {n})
    case Receive(m) => s.(cache := Some(Received(s.cache, m)))
  }

  function Exec(actions: seq<Action>): State {
    if actions == [] then State(None, [], {})
    else Step(Exec(actions[..|actions| - 1]), actions[|actions| - 1])
  }

  predicate IsRun(actions: seq<Action>) {
    actions == []
    || (IsRun(actions[..|actions| - 1]) && Enabled(Exec(actions[..|actions| - 1]), actions[|actions| - 1]))
  }

  // ---------- what the run says, without looking at the list ----------

  datatype Slot = Sent(n: nat, senderId: Id, content: string) | Got(message: Message)

  /** Whether anything has filled the cache: a fetch, or a message received before it. */
  predicate Filled(actions: seq<Action>) {
    exists i :: 0 <= i < |actions| && (actions[i].Fetch? || actions[i].Receive?)
  }

  /** How many messages were sent; sending before the list is there fails. */
  function Sends(actions: seq<Action>): nat {
    if actions == [] then 0
    else
      var earlier := actions[..|actions| - 1];
      Sends(earlier) + if actions[|actions| - 1].Send? && Filled(earlier) then 1 else 0
  }

  /** The answer of the last fetch. */
  function Base(actions: seq<Action>): seq<Message> {
    if actions == [] then []
    else if actions[|actions| - 1].Fetch? then actions[|actions| - 1].history
    else Base(actions[..|actions| - 1])
  }

  /** How many messages were sent before the last fetch. */
  function First(actions: seq<Action>): nat {
    if actions == [] then 0
    else if actions[|actions| - 1].Fetch? then Sends(actions[..|actions| - 1])
    else First(actions[..|actions| - 1])
  }

  /** What was sent and received since the last fetch, in order. Nothing goes on the log before the cache is
      filled, so the message that fills it is missing. */
  function Log(actions: seq<Action>): seq<Slot> {
    if actions == [] then []
    else
      var earlier := actions[..|actions| - 1];
      match actions[|actions| - 1]
      case Fetch(_) => []
      case Send(u, content) => if Filled(earlier) then Log(earlier) + [Sent(Sends(earlier), u, content)] else []
      case Receive(m) => if Filled(earlier) then Log(earlier) + [Got(m)] else []
      case Confirm(_, _) => Log(earlier)
  }

  /** Which sends were confirmed, and with what. */
  function Responses(actions: seq<Action>): map<nat, Message> {
    if actions == [] then map[]
    else
      var earlier := Responses(actions[..|actions| - 1]);
      match actions[|actions| - 1]
      case Confirm(n, m) => earlier[n := m]
      case _ => earlier
  }

  /** How position `index` of the list should look. */
  function Render(slot: Slot, responses: map<nat, Message>, index: nat): Message {
    match slot
    case Got(m) => m
    case Sent(n, u, content) => if n in responses then responses[n] else Message(PendingId(index), u, content)
  }

  function Rendered(base: seq<Message>, log: seq<Slot>, responses: map<nat, Message>): seq<Message> {
    base + seq(|log|, i requires 0 <= i < |log| => Render(log[i], responses, |base| + i))
  }

  /** The list as the run has it, None as long as nothing has filled the cache. */
  function ListOf(actions: seq<Action>): Option<seq<Message>> {
    if Filled(actions) then Some(Rendered(Base(actions), Log(actions), Responses(actions))) else None
  }

  /** Another send, made after the last fetch and still unconfirmed, bears the pending id of send `n`, made
      before that fetch. */
  predicate Clashes(first: nat, s: State, n: nat) {
    n < first && n < |s.sends|
    && exists k :: first <= k < |s.sends| && k !in s.answered && s.sends[k].id == s.sends[n].id
  }

  /** No confirmation arrives while its pending id is another send's. */
  predicate NoClash(actions: seq<Action>) {
    actions == []
    || (var earlier, last := actions[..|actions| - 1], actions[|actions| - 1];
        NoClash(earlier) && (last.Confirm? ==> !Clashes(First(earlier), Exec(earlier), last.send)))
  }

  /** What one more action does to all of these. */
  lemma Then(actions: seq<Action>, a: Action)
    ensures Exec(actions + [a]) == Step(Exec(actions), a)
    ensures IsRun(actions + [a]) <==> IsRun(actions) && Enabled(Exec(actions), a)
    ensures NoClash(actions + [a]) <==>
              NoClash(actions) && (a.Confirm? ==> !Clashes(First(actions), Exec(actions), a.send))
    ensures Sends(actions + [a]) == Sends(actions) + if a.Send? && Filled(actions) then 1 else 0
    ensures First(actions + [a]) == if a.Fetch? then Sends(actions) else First(actions)
  {
    assert (actions + [a])[..|actions|] == actions;
  }

  // ---------- invariants ----------

  /** The last fetched list, the number of sends before it, and what followed it. */
  datatype View = View(base: seq<Message>, first: nat, log: seq<Slot>, responses: map<nat, Message>)

  function ViewOf(actions: seq<Action>): View {
    View(Base(actions), First(actions), Log(actions), Responses(actions))
  }

  ghost predicate HasSlot(log: seq<Slot>, n: nat) {
    exists i :: 0 <= i < |log| && log[i].Sent? && log[i].n == n
  }

  /** Each send since the last fetch has its own slot in the log, where its pending id points. */
  ghost predicate SendsLogged(offset: nat, first: nat, sends: seq<Message>, log: seq<Slot>) {
    && first <= |sends|
    && (forall i :: 0 <= i < |log| && log[i].Sent? ==>
          && first <= log[i].n < |sends|
          && sends[log[i].n] == Message(PendingId(offset + i), log[i].senderId, log[i].content))
    && (forall n :: first <= n < |sends| ==> HasSlot(log, n))
  }

  /** Ids of fetched and received messages and of responses are the server's. */
  ghost predicate ServerNamed(base: seq<Message>, log: seq<Slot>, responses: map<nat, Message>) {
    && (forall i :: 0 <= i < |base| ==> !IsPending(base[i].id))
    && (forall i :: 0 <= i < |log| && log[i].Got? ==> !IsPending(log[i].message.id))
    && (forall n :: n in responses ==> !IsPending(responses[n].id))
  }

  ghost predicate Looks(v: View, s: State) {
    && s.cache == Some(Rendered(v.base, v.log, v.responses))
    && SendsLogged(|v.base|, v.first, s.sends, v.log) && ServerNamed(v.base, v.log, v.responses)
    && v.responses.Keys == s.answered && forall n :: n in s.answered ==> n < |s.sends|
  }

  lemma SlotsAreDistinct(offset: nat, first: nat, sends: seq<Message>, log: seq<Slot>, i: nat, j: nat)
    requires SendsLogged(offset, first, sends, log) && i < |log| && j < |log|
    requires log[i].Sent? && log[j].Sent? && log[i].n == log[j].n
    ensures i == j
  {
    PendingIdsAreInjective(offset + i, offset + j);
  }

  lemma OldSlots(log: seq<Slot>, slot: Slot, n: nat)
    requires HasSlot(log, n) || (slot.Sent? && slot.n == n)
    ensures HasSlot(log + [slot], n)
  {
    var log' := log + [slot];
    if HasSlot(log, n) {
      var i :| 0 <= i < |log| && log[i].Sent? && log[i].n == n;
      assert log'[i].n == n;
    } else {
      assert log'[|log|].n == n;
    }
  }

  lemma RenderedSnoc(base: seq<Message>, log: seq<Slot>, responses: map<nat, Message>, slot: Slot)
    ensures Rendered(base, log + [slot], responses)
            == Rendered(base, log, responses) + [Render(slot, responses, |base| + |log|)]
  {
  }

  lemma SlotsGrow(log: seq<Slot>, slot: Slot, first: nat, count: nat)
    requires slot.Sent? && slot.n == count && forall n :: first <= n < count ==> HasSlot(log, n)
    ensures forall n :: first <= n <= count ==> HasSlot(log + [slot], n)
  {
    forall n | first <= n <= count ensures HasSlot(log + [slot], n) {
      OldSlots(log, slot, n);
    }
  }

  lemma SendIsLogged(offset: nat, first: nat, sends: seq<Message>, log: seq<Slot>, u: Id, content: string)
    requires SendsLogged(offset, first, sends, log)
    ensures SendsLogged(offset, first, sends + [Message(PendingId(offset + |log|), u, content)],
                        log + [Sent(|sends|, u, content)])
  {
    SlotsGrow(log, Sent(|sends|, u, content), first, |sends|);
  }

  lemma SendIsNamed(base: seq<Message>, log: seq<Slot>, responses: map<nat, Message>, slot: Slot)
    requires ServerNamed(base, log, responses) && slot.Sent?
    ensures ServerNamed(base, log + [slot], responses)
  {
  }

  lemma SendLooks(v: View, s: State, u: Id, content: string)
    requires Looks(v, s)
    ensures Looks(v.(log := v.log + [Sent(|s.sends|, u, content)]), Step(s, Send(u, content)))
  {
    RenderedSnoc(v.base, v.log, v.responses, Sent(|s.sends|, u, content));
    SendIsNamed(v.base, v.log, v.responses, Sent(|s.sends|, u, content));
    assert |s.cache.value| == |v.base| + |v.log|;
    SendIsLogged(|v.base|, v.first, s.sends, v.log, u, content);
  }

  lemma ReceiveLooks(v: View, s: State, m: Message)
    requires Looks(v, s) && !IsPending(m.id)
    ensures Looks(v.(log := v.log + [Got(m)]), Step(s, Receive(m)))
  {
    RenderedSnoc(v.base, v.log, v.responses, Got(m));
    forall n | v.first <= n < |s.sends| ensures HasSlot(v.log + [Got(m)], n) {
      OldSlots(v.log, Got(m), n);
    }
  }

  /** What is not pending has the server's id, and what is pending has its own position's. */
  lemma IdAt(v: View, s: State, i: nat)
    requires Looks(v, s) && i < |s.cache.value|
    ensures var m := s.cache.value[i];
            && (IsPending(m.id) <==>
                i >= |v.base| && v.log[i - |v.base|].Sent? && v.log[i - |v.base|].n !in v.responses)
            && (IsPending(m.id) ==> m.id == PendingId(i) && m == s.sends[v.log[i - |v.base|].n])
  {
    PendingIdsAreInjective(i, i);
    if i >= |v.base| { assert s.cache.value[i] == Render(v.log[i - |v.base|], v.responses, i); }
  }

  lemma NotItsId(v: View, s: State, k: nat, i: nat)
    requires Looks(v, s) && k < |v.log| && v.log[k].Sent? && i < |s.cache.value| && i != |v.base| + k
    ensures s.cache.value[i].id != s.sends[v.log[k].n].id
  {
    IdAt(v, s, i);
    PendingIdsAreInjective(|v.base| + k, i);
  }

  lemma ReplaceOnly(cache: seq<Message>, id: string, m: Message, k: nat)
    requires k < |cache| && cache[k].id == id
    requires forall i :: 0 <= i < |cache| && i != k ==> cache[i].id != id
    ensures Confirmed(cache, id, m) == cache[k := m]
  {
  }

  lemma SlotOf(v: View, s: State, n: nat) returns (k: nat)
    requires Looks(v, s) && v.first <= n < |s.sends| && n !in s.answered
    ensures k < |v.log| && v.log[k].Sent? && v.log[k].n == n && s.cache.value[|v.base| + k] == s.sends[n]
  {
    assert HasSlot(v.log, n);
    k :| 0 <= k < |v.log| && v.log[k].Sent? && v.log[k].n == n;
    IdAt(v, s, |v.base| + k);
  }

  /** The confirmation of a send since the last fetch replaces exactly one position. */
  lemma ConfirmReplacesOne(v: View, s: State, n: nat, m: Message) returns (k: nat)
    requires Looks(v, s) && v.first <= n && Enabled(s, Confirm(n, m))
    ensures k < |v.log| && v.log[k].Sent? && v.log[k].n == n && s.cache.value[|v.base| + k] == s.sends[n]
    ensures Step(s, Confirm(n, m)).cache == Some(s.cache.value[|v.base| + k := m])
  {
    k := SlotOf(v, s, n);
    var list, id, at := s.cache.value, s.sends[n].id, |v.base| + k;
    forall i | 0 <= i < |list| && i != at ensures list[i].id != id {
      NotItsId(v, s, k, i);
    }
    ReplaceOnly(list, id, m, at);
  }

  lemma RenderedConfirmed(base: seq<Message>, first: nat, sends: seq<Message>, log: seq<Slot>,
                          responses: map<nat, Message>, k: nat, n: nat, m: Message)
    requires SendsLogged(|base|, first, sends, log) && k < |log| && log[k].Sent? && log[k].n == n
    ensures Rendered(base, log, responses[n := m]) == Rendered(base, log, responses)[|base| + k := m]
  {
    forall i | 0 <= i < |log| && i != k
      ensures Render(log[i], responses[n := m], |base| + i) == Render(log[i], responses, |base| + i)
    {
      if log[i].Sent? && log[i].n == n { SlotsAreDistinct(|base|, first, sends, log, i, k); }
    }
  }

  lemma ConfirmLooks(v: View, s: State, n: nat, m: Message)
    requires Looks(v, s) && v.first <= n && Enabled(s, Confirm(n, m))
    ensures Looks(v.(responses := v.responses[n := m]), Step(s, Confirm(n, m)))
  {
    var k := ConfirmReplacesOne(v, s, n, m);
    RenderedConfirmed(v.base, v.first, s.sends, v.log, v.responses, k, n, m);
  }

  // ---------- confirmations of sends from before the last fetch ----------

  lemma ReplaceNone(cache: seq<Message>, id: string, m: Message)
    requires forall i :: 0 <= i < |cache| ==> cache[i].id != id
    ensures Confirmed(cache, id, m) == cache
  {
  }

  /** Without a clash the list has nobody of that pending id. */
  lemma NobodysId(v: View, s: State, n: nat, i: nat)
    requires Looks(v, s) && n < v.first && IsPending(s.sends[n].id) && !Clashes(v.first, s, n) && i < |s.cache.value|
    ensures s.cache.value[i].id != s.sends[n].id
  {
    IdAt(v, s, i);
    if IsPending(s.cache.value[i].id) {
      var k := v.log[i - |v.base|].n;
      assert s.sends[k] == s.cache.value[i];
    }
  }

  lemma LateRendered(v: View, s: State, n: nat, m: Message)
    requires Looks(v, s) && n < v.first
    ensures Rendered(v.base, v.log, v.responses[n := m]) == Rendered(v.base, v.log, v.responses)
  {
    forall i | 0 <= i < |v.log|
      ensures Render(v.log[i], v.responses[n := m], |v.base| + i) == Render(v.log[i], v.responses, |v.base| + i)
    {
    }
  }

  lemma LateConfirmLooks(v: View, s: State, n: nat, m: Message)
    requires Looks(v, s) && n < v.first && IsPending(s.sends[n].id) && Enabled(s, Confirm(n, m))
    requires !Clashes(v.first, s, n)
    ensures Looks(v.(responses := v.responses[n := m]), Step(s, Confirm(n, m)))
  {
    forall i | 0 <= i < |s.cache.value| ensures s.cache.value[i].id != s.sends[n].id {
      NobodysId(v, s, n, i);
    }
    ReplaceNone(s.cache.value, s.sends[n].id, m);
    LateRendered(v, s, n, m);
  }

  /** With a clash the other send's message is overwritten. */
  lemma ClashOverwrites(v: View, s: State, n: nat, m: Message)
    requires Looks(v, s) && Enabled(s, Confirm(n, m)) && Clashes(v.first, s, n)
    ensures Step(s, Confirm(n, m)).cache != Some(Rendered(v.base, v.log, v.responses[n := m]))
  {
    var k :| v.first <= k < |s.sends| && k !in s.answered && s.sends[k].id == s.sends[n].id;
    var j := SlotOf(v, s, k);
    LateRendered(v, s, n, m);
    IdAt(v, s, |v.base| + j);
    assert Confirmed(s.cache.value, s.sends[n].id, m)[|v.base| + j] == m;
  }

  // ---------- every run ----------

  lemma FilledBySnoc(actions: seq<Action>)
    requires actions != []
    ensures Filled(actions)
       <==> Filled(actions[..|actions| - 1]) || actions[|actions| - 1].Fetch? || actions[|actions| - 1].Receive?
  {
    var earlier := actions[..|actions| - 1];
    if Filled(earlier) {
      var i :| 0 <= i < |earlier| && (earlier[i].Fetch? || earlier[i].Receive?);
      assert actions[i] == earlier[i];
    }
    if Filled(actions) {
      var i :| 0 <= i < |actions| && (actions[i].Fetch? || actions[i].Receive?);
      assert i < |earlier| ==> earlier[i] == actions[i];
    }
  }

  /** Before anything fills the cache there is nothing to see. */
  lemma {:induction false} UnfilledRun(actions: seq<Action>)
    requires IsRun(actions) && !Filled(actions)
    ensures Exec(actions) == State(None, [], {})
    ensures Sends(actions) == 0 && ViewOf(actions) == View([], 0, [], map[])
  {
    if actions != [] {
      FilledBySnoc(actions);
      UnfilledRun(actions[..|actions| - 1]);
    }
  }

  lemma {:induction false} SendsArePending(actions: seq<Action>, n: nat)
    requires IsRun(actions) && n < |Exec(actions).sends|
    ensures IsPending(Exec(actions).sends[n].id)
  {
    if actions != [] {
      var s := Exec(actions[..|actions| - 1]);
      if n < |s.sends| {
        SendsArePending(actions[..|actions| - 1], n);
      } else {
        PendingIdsAreInjective(|s.cache.value|, |s.cache.value|);
      }
    }
  }

  /** The first receive of an unfetched cache fills it with nothing. */
  lemma FirstReceiveLooks(m: Message)
    ensures Looks(View([], 0, [], map[]), Step(State(None, [], {}), Receive(m)))
  {
    assert Rendered([], [], map[]) == [];
  }

  lemma FetchLooks(v: View, s: State, history: seq<Message>)
    requires Enabled(s, Fetch(history)) && v.responses.Keys == s.answered
    requires forall n :: n in s.answered ==> n < |s.sends|
    requires forall n :: n in v.responses ==> !IsPending(v.responses[n].id)
    ensures Looks(View(history, |s.sends|, [], v.responses), Step(s, Fetch(history)))
  {
    assert Rendered(history, [], v.responses) == history;
  }

  lemma {:induction false} FilledIsSome(actions: seq<Action>)
    requires IsRun(actions)
    ensures Filled(actions) <==> Exec(actions).cache.Some?
    ensures !Filled(actions) ==> Exec(actions).sends == []
  {
    if actions != [] {
      FilledBySnoc(actions);
      FilledIsSome(actions[..|actions| - 1]);
    }
  }

  /** What the last action does to the view. */
  function ViewAfter(v: View, filled: bool, sent: nat, a: Action): View {
    match a
    case Fetch(history) => View(history, sent, [], v.responses)
    case Send(u, content) => v.(log := if filled then v.log + [Sent(sent, u, content)] else [])
    case Receive(m) => v.(log := if filled then v.log + [Got(m)] else [])
    case Confirm(n, m) => v.(responses := v.responses[n := m])
  }

  lemma ViewSnoc(actions: seq<Action>)
    requires actions != []
    ensures var earlier := actions[..|actions| - 1];
            ViewOf(actions) == ViewAfter(ViewOf(earlier), Filled(earlier), Sends(earlier), actions[|actions| - 1])
  {
  }

  lemma StepLooks(s: State, v: View, filled: bool, a: Action)
    requires Enabled(s, a) && (filled || a.Fetch? || a.Receive?) && (filled ==> Looks(v, s))
    requires !filled ==> s == State(None, [], {}) && v == View([], 0, [], map[])
    requires forall n :: 0 <= n < |s.sends| ==> IsPending(s.sends[n].id)
    requires a.Confirm? ==> !Clashes(v.first, s, a.send)
    ensures Looks(ViewAfter(v, filled, |s.sends|, a), Step(s, a))
  {
    match a
    case Fetch(history) => FetchLooks(v, s, history);
    case Send(u, content) => SendLooks(v, s, u, content);
    case Receive(m) => if filled { ReceiveLooks(v, s, m); } else { FirstReceiveLooks(m); }
    case Confirm(n, m) => if n < v.first { LateConfirmLooks(v, s, n, m); } else { ConfirmLooks(v, s, n, m); }
  }

  lemma SendsSnoc(actions: seq<Action>)
    requires actions != [] && IsRun(actions)
    requires |Exec(actions[..|actions| - 1]).sends| == Sends(actions[..|actions| - 1])
    ensures |Exec(actions).sends| == Sends(actions)
  {
    FilledIsSome(actions[..|actions| - 1]);
  }

  lemma {:induction false} RunLooks(actions: seq<Action>)
    requires IsRun(actions) && NoClash(actions) && Filled(actions)
    ensures Looks(ViewOf(actions), Exec(actions))
    ensures |Exec(actions).sends| == Sends(actions)
    decreases |actions|
  {
    var earlier, a := actions[..|actions| - 1], actions[|actions| - 1];
    FilledBySnoc(actions);
    if Filled(earlier) { RunLooks(earlier); } else { UnfilledRun(earlier); }
    SendsSnoc(actions);
    ViewSnoc(actions);
    forall n | 0 <= n < |Exec(earlier).sends| ensures IsPending(Exec(earlier).sends[n].id) {
      SendsArePending(earlier, n);
    }
    StepLooks(Exec(earlier), ViewOf(earlier), Filled(earlier), a);
  }

  // ---------- results ----------

  /** In every interleaving the list is the log: each message sent or received since the last fetch has one
      position, in the order of sending and receiving, holding the server's message once it is there. */
  lemma ListIsTheLog(actions: seq<Action>)
    requires IsRun(actions) && NoClash(actions)
    ensures Exec(actions).cache == ListOf(actions)
  {
    if Filled(actions) { RunLooks(actions); } else { UnfilledRun(actions); }
  }

  /** A confirmation breaks that exactly when its pending id has become another send's: the send was made before
      the last fetch, on a list that a message had filled too early. */
  lemma ConfirmKeepsTheLogIff(actions: seq<Action>, n: nat, m: Message)
    requires IsRun(actions) && NoClash(actions) && Enabled(Exec(actions), Confirm(n, m))
    ensures Exec(actions + [Confirm(n, m)]).cache == ListOf(actions + [Confirm(n, m)])
       <==> !Clashes(First(actions), Exec(actions), n)
  {
    var after := actions + [Confirm(n, m)];
    assert after[..|actions|] == actions;
    FilledBySnoc(after);
    if !Filled(actions) { UnfilledRun(actions); }
    RunLooks(actions);
    if Clashes(First(actions), Exec(actions), n) {
      ClashOverwrites(ViewOf(actions), Exec(actions), n, m);
    } else {
      ListIsTheLog(after);
    }
  }

  /** A received message is kept exactly when a fetch or another received message came before it. */
  lemma ReceiveIsKeptIff(actions: seq<Action>, m: Message)
    requires IsRun(actions) && !IsPending(m.id)
    ensures var before, after := Exec(actions).cache, Exec(actions + [Receive(m)]).cache;
            && after.Some?
            && (Filled(actions) <==> m in after.value)
            && (Filled(actions) ==> before.Some? && after.value == before.value + [m])
  {
    assert (actions + [Receive(m)])[..|actions|] == actions;
    FilledIsSome(actions);
  }

  /** A confirmation always finds a list: nothing is sent before there is one, and it never goes away. */
  lemma ConfirmationFindsAList(actions: seq<Action>, n: nat, m: Message)
    requires IsRun(actions) && Enabled(Exec(actions), Confirm(n, m))
    ensures Exec(actions).cache.Some?
  {
    FilledIsSome(actions);
  }

  function ReceivedIn(actions: seq<Action>): seq<Message> {
    if actions == [] then []
    else
      var earlier := ReceivedIn(actions[..|actions| - 1]);
      match actions[|actions| - 1]
      case Receive(m) => earlier + [m]
      case _ => earlier
  }

  function Gots(log: seq<Slot>): seq<Message> {
    if log == [] then []
    else
      var earlier := Gots(log[..|log| - 1]);
      match log[|log| - 1]
      case Got(m) => earlier + [m]
      case Sent(_, _, _) => earlier
  }

  lemma GotsSnoc(log: seq<Slot>, slot: Slot)
    ensures Gots(log + [slot]) == if slot.Got? then Gots(log) + [slot.message] else Gots(log)
  {
    assert (log + [slot])[..|log|] == log;
  }

  /** All that was received but the first message. */
  ghost predicate LacksTheFirst(actions: seq<Action>) {
    && Base(actions) == []
    && (Filled(actions) <==> ReceivedIn(actions) != [])
    && Gots(Log(actions)) == if Filled(actions) then ReceivedIn(actions)[1..] else []
  }

  lemma LacksTheFirstStill(earlier: seq<Action>, a: Action)
    requires LacksTheFirst(earlier) && !a.Fetch?
    ensures LacksTheFirst(earlier + [a])
  {
    var actions := earlier + [a];
    assert actions[..|earlier|] == earlier;
    FilledBySnoc(actions);
    match a
    case Receive(m) => if Filled(earlier) { GotsSnoc(Log(earlier), Got(m)); }
    case Send(u, content) => if Filled(earlier) { GotsSnoc(Log(earlier), Sent(Sends(earlier), u, content)); }
    case Confirm(_, _) => assert Log(actions) == Log(earlier);
  }

  /** Without a fetch the log has every message received but the first. */
  lemma {:induction false} OnlyTheFirstIsLost(actions: seq<Action>)
    requires forall i :: 0 <= i < |actions| ==> !actions[i].Fetch?
    ensures LacksTheFirst(actions)
  {
    if actions != [] {
      var earlier := actions[..|actions| - 1];
      OnlyTheFirstIsLost(earlier);
      LacksTheFirstStill(earlier, actions[|actions| - 1]);
      assert earlier + [actions[|actions| - 1]] == actions;
    }
  }

  function Receives(ms: seq<Message>): seq<Action> {
    seq(|ms|, i requires 0 <= i < |ms| => Receive(ms[i]))
  }

  lemma ReceivesSnoc(ms: seq<Message>, m: Message)
    ensures Receives(ms + [m]) == Receives(ms) + [Receive(m)]
  {
  }

  lemma ReceiveOneMore(actions: seq<Action>, list: seq<Message>, m: Message)
    requires Exec(actions).cache == Some(list)
    ensures Exec(actions + [Receive(m)]).cache == Some(list + [m])
  {
    Then(actions, Receive(m));
  }

  lemma ReceiveFirst(m: Message)
    ensures Exec([] + [Receive(m)]).cache == Some([])
  {
    Then([], Receive(m));
  }

  /** What is received before any fetch makes a list that lacks the first message. */
  lemma {:induction false} ReceivedTooEarly(first: Message, rest: seq<Message>)
    ensures Exec(Receives([first] + rest)).cache == Some(rest)
  {
    if rest == [] {
      assert Receives([first] + []) == [] + [Receive(first)];
      ReceiveFirst(first);
    } else {
      var earlier, last := rest[..|rest| - 1], rest[|rest| - 1];
      assert [first] + rest == [first] + earlier + [last];
      ReceivesSnoc([first] + earlier, last);
      ReceivedTooEarly(first, earlier);
      ReceiveOneMore(Receives([first] + earlier), earlier, last);
      assert earlier + [last] == rest;
    }
  }

  /** An element with a pending id sits at the index it names. */
  lemma PendingInPlace(actions: seq<Action>, i: nat)
    requires IsRun(actions) && NoClash(actions)
    requires Exec(actions).cache.Some? && i < |Exec(actions).cache.value|
    requires IsPending(Exec(actions).cache.value[i].id)
    ensures Exec(actions).cache.value[i].id == PendingId(i)
  {
    FilledIsSome(actions);
    RunLooks(actions);
    IdAt(ViewOf(actions), Exec(actions), i);
  }

  /** Every confirmation of a send since the last fetch, however late, replaces exactly one element, its own,
      and in place. */
  lemma ConfirmationIsInPlace(actions: seq<Action>, n: nat, m: Message)
    requires IsRun(actions) && NoClash(actions) && First(actions) <= n && Enabled(Exec(actions), Confirm(n, m))
    ensures var s := Exec(actions);
            s.cache.Some? && exists k :: 0 <= k < |s.cache.value| && s.cache.value[k] == s.sends[n]
                                      && Step(s, Confirm(n, m)).cache == Some(s.cache.value[k := m])
  {
    FilledIsSome(actions);
    RunLooks(actions);
    var k := ConfirmReplacesOne(ViewOf(actions), Exec(actions), n, m);
    assert Exec(actions).cache.value[|Base(actions)| + k] == Exec(actions).sends[n];
  }

  /** With nothing left to confirm, the pending messages are gone: after the fetched history come the received
      messages and the responses, in the order of receiving and sending. */
  lemma AllConfirmed(actions: seq<Action>)
    requires IsRun(actions) && NoClash(actions) && Filled(actions) && |Exec(actions).answered| == Sends(actions)
    ensures Exec(actions).cache.Some?
    ensures var list, log := Exec(actions).cache.value, Log(actions);
            && |list| == |Base(actions)| + |log|
            && (forall i :: 0 <= i < |list| ==> !IsPending(list[i].id))
            && forall i :: 0 <= i < |log| ==> Settled(log[i], Responses(actions), list[|Base(actions)| + i])
  {
    var v, s := ViewOf(actions), Exec(actions);
    RunLooks(actions);
    EveryoneAnswered(s.answered, Sends(actions));
    AllSettled(v, s);
  }

  /** A slot that holds the server's message. */
  predicate Settled(slot: Slot, responses: map<nat, Message>, m: Message) {
    match slot
    case Got(received) => m == received
    case Sent(n, _, _) => n in responses && m == responses[n]
  }

  lemma AllSettled(v: View, s: State)
    requires Looks(v, s) && forall n :: 0 <= n < |s.sends| ==> n in s.answered
    ensures forall i :: 0 <= i < |s.cache.value| ==> !IsPending(s.cache.value[i].id)
    ensures forall i :: 0 <= i < |v.log| ==> Settled(v.log[i], v.responses, s.cache.value[|v.base| + i])
  {
    forall i | 0 <= i < |s.cache.value| ensures !IsPending(s.cache.value[i].id) {
      IdAt(v, s, i);
    }
  }

  lemma {:induction false} EveryoneAnswered(answered: set<nat>, count: nat)
    requires |answered| == count && forall n :: n in answered ==> n < count
    ensures forall n :: 0 <= n < count ==> n in answered
  {
    if count > 0 {
      if count - 1 in answered {
        EveryoneAnswered(answered - {count - 1}, count - 1);
      } else {
        TooMany(answered, count - 1);
        assert false;
      }
    }
  }

  lemma {:induction false} TooMany(s: set<nat>, bound: nat)
    requires forall n :: n in s ==> n < bound
    ensures |s| <= bound
  {
    if bound > 0 { TooMany(s - {bound - 1}, bound - 1); } else { assert s == {}; }
  }

  /** The server never gives the same id twice. */
  ghost predicate ServerIdsUnique(base: seq<Message>, log: seq<Slot>, responses: map<nat, Message>) {
    && (forall i, j :: 0 <= i < j < |base| ==> base[i].id != base[j].id)
    && (forall i, j :: 0 <= i < |base| && 0 <= j < |log| && log[j].Got? ==> base[i].id != log[j].message.id)
    && (forall i, n :: 0 <= i < |base| && n in responses ==> base[i].id != responses[n].id)
    && (forall i, j :: 0 <= i < j < |log| && log[i].Got? && log[j].Got? ==> log[i].message.id != log[j].message.id)
    && (forall i, n :: 0 <= i < |log| && log[i].Got? && n in responses ==> log[i].message.id != responses[n].id)
    && (forall m, n :: m in responses && n in responses && m != n ==> responses[m].id != responses[n].id)
  }

  lemma IdsDiffer(v: View, s: State, i: nat, j: nat)
    requires Looks(v, s) && ServerIdsUnique(v.base, v.log, v.responses) && i < j < |s.cache.value|
    ensures s.cache.value[i].id != s.cache.value[j].id
  {
    IdAt(v, s, i);
    IdAt(v, s, j);
    PendingIdsAreInjective(i, j);
    if !IsPending(s.cache.value[i].id) && !IsPending(s.cache.value[j].id) {
      ServerMessageAt(v, s, i);
      ServerMessageAt(v, s, j);
      OwnSlots(v, s, i, j);
      ServerIdsDiffer(v, i, j, s.cache.value[i], s.cache.value[j]);
    }
  }

  /** A message of the server at position i of the list. */
  predicate ServersAt(v: View, i: nat, m: Message) {
    if i < |v.base| then m == v.base[i] else i < |v.base| + |v.log| && Settled(v.log[i - |v.base|], v.responses, m)
  }

  /** Not two slots of the same send. */
  predicate OwnSlot(v: View, i: nat, j: nat)
    requires i < j < |v.base| + |v.log|
  {
    i >= |v.base| && v.log[i - |v.base|].Sent? && v.log[j - |v.base|].Sent? ==>
      v.log[i - |v.base|].n != v.log[j - |v.base|].n
  }

  lemma ServerMessageAt(v: View, s: State, i: nat)
    requires Looks(v, s) && i < |s.cache.value| && !IsPending(s.cache.value[i].id)
    ensures ServersAt(v, i, s.cache.value[i])
  {
    IdAt(v, s, i);
    if i >= |v.base| { assert s.cache.value[i] == Render(v.log[i - |v.base|], v.responses, i); }
  }

  lemma OwnSlots(v: View, s: State, i: nat, j: nat)
    requires Looks(v, s) && i < j < |v.base| + |v.log|
    ensures OwnSlot(v, i, j)
  {
    if i >= |v.base| && !OwnSlot(v, i, j) {
      SlotsAreDistinct(|v.base|, v.first, s.sends, v.log, i - |v.base|, j - |v.base|);
      assert false;
    }
  }

  lemma ServerIdsDiffer(v: View, i: nat, j: nat, m: Message, m': Message)
    requires ServerIdsUnique(v.base, v.log, v.responses) && i < j < |v.base| + |v.log| && OwnSlot(v, i, j)
    requires ServersAt(v, i, m) && ServersAt(v, j, m')
    ensures m.id != m'.id
  {
  }

  /** Then the list's ids, pending ones included, are unique at every moment. */
  lemma IdsStayUnique(actions: seq<Action>, i: nat, j: nat)
    requires IsRun(actions) && NoClash(actions)
    requires ServerIdsUnique(Base(actions), Log(actions), Responses(actions))
    requires Exec(actions).cache.Some? && i < j < |Exec(actions).cache.value|
    ensures Exec(actions).cache.value[i].id != Exec(actions).cache.value[j].id
  {
    FilledIsSome(actions);
    RunLooks(actions);
    IdsDiffer(ViewOf(actions), Exec(actions), i, j);
  }

  // ---------- a message lost, and one overwritten ----------

  const EARLY := Message("a", 1, "first")
  const NEXT := Message("b", 1, "second")
  const ANSWER := Message("c", 2, "one")

  /** The client is told of two messages before it opens the channel: the first is gone. */
  lemma MessageIsLost()
    ensures IsRun([] + [Receive(EARLY)] + [Receive(NEXT)])
    ensures Exec([] + [Receive(EARLY)] + [Receive(NEXT)]).cache == Some([NEXT])
  {
    Then([], Receive(EARLY));
    Then([] + [Receive(EARLY)], Receive(NEXT));
    assert [] + [NEXT] == [NEXT];
  }

  // A message arrives while the list is being fetched, and the user writes before and after the answer.
  const CLASH1: seq<Action> := [] + [Receive(EARLY)]
  const CLASH2 := CLASH1 + [Send(2, "one")]
  const CLASH3 := CLASH2 + [Fetch([])]
  const CLASH4 := CLASH3 + [Send(2, "two")]
  const CLASH5 := CLASH4 + [Confirm(0, ANSWER)]

  lemma ClashStart(one: Message)
    requires one == Message(PendingId(0), 2, "one")
    ensures IsRun(CLASH2) && NoClash(CLASH2) && Exec(CLASH2) == State(Some([one]), [one], {}) && Sends(CLASH2) == 1
  {
    Then([], Receive(EARLY));
    Then(CLASH1, Send(2, "one"));
    assert CLASH1[0].Receive?;
    assert [] + [one] == [one];
  }

  lemma ClashMiddle(one: Message, two: Message)
    requires one == Message(PendingId(0), 2, "one") && two == Message(PendingId(0), 2, "two")
    ensures IsRun(CLASH4) && NoClash(CLASH4) && Exec(CLASH4) == State(Some([two]), [one, two], {}) && First(CLASH4) == 1
  {
    ClashStart(one);
    Then(CLASH2, Fetch([]));
    Then(CLASH3, Send(2, "two"));
    assert [] + [two] == [two] && [one] + [two] == [one, two];
  }

  /** The confirmation of the first message takes the place of the second. */
  lemma ConfirmationOverwrites()
    ensures IsRun(CLASH5) && Exec(CLASH5).cache == Some([ANSWER]) && ListOf(CLASH5) != Some([ANSWER])
  {
    var one, two := Message(PendingId(0), 2, "one"), Message(PendingId(0), 2, "two");
    ClashMiddle(one, two);
    Then(CLASH4, Confirm(0, ANSWER));
    assert Exec(CLASH4).sends[1].id == Exec(CLASH4).sends[0].id;
    assert Clashes(1, Exec(CLASH4), 0);
    assert Confirmed([two], one.id, ANSWER) == [ANSWER];
    ConfirmKeepsTheLogIff(CLASH4, 0, ANSWER);
  }

  // ---------- the cache ----------

  class MessagesCache {
    var data: Option<seq<Message>>

    /** Nothing is cached until the channel's history has been fetched. */
    constructor ()
      ensures data == Exec([]).cache
    {
      data := None;
    }

    method Fetch(history: seq<Message>)
      modifies this
      ensures data == Some(history)
    {
      data := Some(history);
    }

    /** The mutation's `onMutate`, which reads the length of the cached list and so throws without one. */
    method OnMutate(senderId: Id, content: string) returns (message: Option<Message>)
      modifies this
      ensures old(data).None? ==> message == None && data == None
      ensures old(data).Some? ==>
                && message == Some(Optimistic(old(data).value, senderId, content))
                && data == Some(old(data).value + [message.value])
    {
      if data.None? { return None; }
      message := Some(Message(PENDING + Numeral(|data.value|, Decimal), senderId, content));
      data := Some(data.value + [message.value]);
    }

    /** The success branch of `onSuccess`. */
    method OnSuccess(optimisticMessage: Message, response: Message)
      modifies this
      ensures data == Some(Answered(old(data), optimisticMessage.id, response))
      ensures old(data).None? ==> data == Some([])
      ensures old(data).Some? ==>
                && |data.value| == |old(data).value|
                && forall i :: 0 <= i < |data.value| ==>
                     data.value[i] == if old(data).value[i].id == optimisticMessage.id then response
                                      else old(data).value[i]
    {
      if data.None? {
        data := Some([]);
        return;
      }
      var old' := data.value;
      var newMessages: seq<Message> := [];
      for i := 0 to |old'|
        invariant newMessages == Confirmed(old', optimisticMessage.id, response)[..i]
        invariant data == old(data)
      {
        newMessages := newMessages + [if old'[i].id == optimisticMessage.id then response else old'[i]];
      }
      assert newMessages == Confirmed(old', optimisticMessage.id, response);
      data := Some(newMessages);
    }

    /** A message for a channel the client does not know stops short of the cache. */
    method HandleMessageReceived(payload: Message, channelKnown: bool)
      modifies this
      ensures data == if channelKnown then Some(Received(old(data), payload)) else old(data)
    {
      if !channelKnown { return; }
      data := if data.None? then Some([]) else Some(data.value + [payload]);
    }
  }
}
