/**
 Routing of inbound control messages (packages/sync/src/controlInbox.ts): handlers first, then whoever
 waits, else a queue per type, so that a message which comes before its `expect` is not lost.
 */
module ControlInbox {
  import opened Basics
  import opened Messages
  import opened Protocol

  datatype FailCode = Peer(code: ErrorCode) | TimedOut | Closed

  /** One pending `expect`. */
  datatype Waiter = Waiter(id: nat, tag: Tag)

  /** What was handed out, and to whom: a handler, an `expect` at once, or a waiter, which may also be refused. */
  datatype Entry = Handled(message: Message) | AtOnce(message: Message) | Got(waiter: Waiter, message: Message)
    | Refused(waiter: Waiter, code: FailCode)

  datatype Inbox = Inbox(handlers: set<Tag>, queued: map<Tag, seq<Message>>, waiters: map<Tag, seq<Waiter>>,
    rejecters: seq<Waiter>, failure: Option<FailCode>, nextId: nat, log: seq<Entry>)

  const EMPTY_INBOX := Inbox({}, map[], map[], [], None, 0, [])

  function Kind(m: Message): Tag {
    match m
    case Hello(_, _, _, _, _) => HelloTag
    case Auth(_) => AuthTag
    case VaultSummary(_, _, _, _) => VaultSummaryTag
    case HistorySummary(_, _) => HistorySummaryTag
    case WantRevisions(_, _) => WantRevisionsTag
    case RevisionHeader(_) => RevisionHeaderTag
    case RevisionAck(_, _, _) => RevisionAckTag
    case TransferCancel(_, _) => TransferCancelTag
    case SyncComplete(_) => SyncCompleteTag
    case Bye => ByeTag
    case Error(_, _) => ErrorTag
  }

  function Queue(s: Inbox, t: Tag): seq<Message> {
    if t in s.queued then s.queued[t] else []
  }

  function Line(s: Inbox, t: Tag): seq<Waiter> {
    if t in s.waiters then s.waiters[t] else []
  }

  /** Takes out the first occurrence. */
  function Without(s: seq<Waiter>, w: Waiter): seq<Waiter> {
    if s == [] then [] else if s[0] == w then s[1..] else [s[0]] + Without(s[1..], w)
  }

  /** A waiter's own clean-up: off both lists. */
  function CleanUp(s: Inbox, w: Waiter): Inbox {
    s.(rejecters := Without(s.rejecters, w),
       waiters := if w.tag in s.waiters then s.waiters[w.tag := Without(s.waiters[w.tag], w)] else s.waiters)
  }

  function Refuse(s: Inbox, w: Waiter, code: FailCode): Inbox {
    CleanUp(s, w).(log := s.log + [Refused(w, code)])
  }

  function RefuseAll(s: Inbox, ws: seq<Waiter>, code: FailCode): Inbox {
    if |ws| == 0 then s else Refuse(RefuseAll(s, ws[..|ws| - 1], code), ws[|ws| - 1], code)
  }

  /** The first failure is kept; whoever waits hears of this one. */
  function Failed(s: Inbox, code: FailCode): Inbox {
    RefuseAll(s.(failure := if s.failure.None? then Some(code) else s.failure), s.rejecters, code).(rejecters := [])
  }

  function Routed(s: Inbox, m: Message): Inbox {
    var t := Kind(m);
    if t in s.handlers then s.(log := s.log + [Handled(m)])
    else if Line(s, t) != [] then
      var w := Line(s, t)[0];
      CleanUp(s.(waiters := s.waiters[t := s.waiters[t][1..]]), w).(log := s.log + [Got(w, m)])
    else s.(queued := s.queued[t := Queue(s, t) + [m]])
  }

  function Accepted(s: Inbox, raw: Json): Inbox {
    match Parse(raw)
    case Err(code) => Failed(s, Peer(code))
    case Ok(m) => if m.Error? then Failed(s, Peer(m.code)) else Routed(s, m)
  }

  function HandleAll(log: seq<Entry>, ms: seq<Message>): seq<Entry> {
    if |ms| == 0 then log else HandleAll(log, ms[..|ms| - 1]) + [Handled(ms[|ms| - 1])]
  }

  function Registered(s: Inbox, t: Tag): Inbox {
    s.(handlers := s.handlers + {t}, queued := s.queued - {t}, log := HandleAll(s.log, Queue(s, t)))
  }

  /** Refused at once after a failure or when a handler would take the message. */
  function Expected(s: Inbox, t: Tag): Inbox {
    if s.failure.Some? || t in s.handlers then s
    else if Queue(s, t) != [] then s.(queued := s.queued[t := s.queued[t][1..]], log := s.log + [AtOnce(s.queued[t][0])])
    else
      var w := Waiter(s.nextId, t);
      s.(waiters := s.waiters[t := Line(s, t) + [w]], rejecters := s.rejecters + [w], nextId := s.nextId + 1)
  }

  /** What the caller of `expect` gets: a refusal, a message that was waiting, or a promise. */
  datatype Answer = No(code: FailCode) | Now(message: Message) | Later(waiter: Waiter)

  function AnswerTo(s: Inbox, t: Tag): Answer {
    if s.failure.Some? then No(s.failure.value)
    else if t in s.handlers then No(Peer(Internal))
    else if Queue(s, t) != [] then Now(s.queued[t][0])
    else Later(Waiter(s.nextId, t))
  }

  /** A timer that still runs goes off. */
  function Expired(s: Inbox, w: Waiter): Inbox {
    if w in s.rejecters then Refuse(s, w, TimedOut) else s
  }

  // ---- the inbox in place ----------------------------------------------------------

  class ControlInbox {
    var handlers: set<Tag>
    var queued: map<Tag, seq<Message>>
    var waiters: map<Tag, seq<Waiter>>
    var rejecters: seq<Waiter>
    var failure: Option<FailCode>
    var nextId: nat
    var log: seq<Entry>

    ghost function State(): Inbox
      reads this
    {
      Inbox(handlers, queued, waiters, rejecters, failure, nextId, log)
    }

    constructor ()
      ensures State() == EMPTY_INBOX
    {
      handlers, queued, waiters, rejecters, failure, nextId, log := {}, map[], map[], [], None, 0, [];
    }

    method Take(w: Waiter)
      modifies `rejecters, `waiters
      ensures State() == CleanUp(old(State()), w)
    {
      rejecters := Without(rejecters, w);
      if w.tag in waiters {
        waiters := waiters[w.tag := Without(waiters[w.tag], w)];
      }
    }

    method Fail(code: FailCode)
      modifies this
      ensures State() == Failed(old(State()), code)
    {
      hide CleanUp;
      if failure.None? {
        failure := Some(code);
      }
      var all := rejecters;
      ghost var start := State();
      for i := 0 to |all|
        invariant State() == RefuseAll(start, all[..i], code)
      {
        Take(all[i]);
        log := log + [Refused(all[i], code)];
        assert all[..i + 1][..i] == all[..i];
      }
      assert all[..|all|] == all;
      rejecters := [];
    }

    method Accept(raw: Json)
      modifies this
      ensures State() == Accepted(old(State()), raw)
    {
      var outcome := Parse(raw);
      if outcome.Err? {
        Fail(Peer(outcome.error));
        return;
      }
      var message := outcome.value;
      if message.Error? {
        Fail(Peer(message.code));
        return;
      }
      var t := Kind(message);
      if t in handlers {
        log := log + [Handled(message)];
      } else if t in waiters && waiters[t] != [] {
        var w := waiters[t][0];
        waiters := waiters[t := waiters[t][1..]];
        Take(w);
        log := log + [Got(w, message)];
      } else {
        var queue := if t in queued then queued[t] else [];
        queued := queued[t := queue + [message]];
      }
    }

    method On(t: Tag)
      modifies this
      ensures State() == Registered(old(State()), t)
    {
      handlers := handlers + {t};
      var pending := if t in queued then queued[t] else [];
      queued := queued - {t};
      ghost var before := log;
      for i := 0 to |pending|
        invariant handlers == old(handlers) + {t} && queued == old(queued) - {t} && log == HandleAll(before, pending[..i])
        invariant waiters == old(waiters) && rejecters == old(rejecters) && failure == old(failure) && nextId == old(nextId)
      {
        log := log + [Handled(pending[i])];
        assert pending[..i + 1][..i] == pending[..i];
      }
      assert pending[..|pending|] == pending;
    }

    method Expect(t: Tag) returns (answer: Answer)
      modifies this
      ensures State() == Expected(old(State()), t) && answer == AnswerTo(old(State()), t)
    {
      if failure.Some? {
        return No(failure.value);
      }
      if t in handlers {
        return No(Peer(Internal));
      }
      if t in queued && queued[t] != [] {
        var ready := queued[t][0];
        log := log + [AtOnce(ready)];
        queued := queued[t := queued[t][1..]];
        return Now(ready);
      }
      var w := Waiter(nextId, t);
      nextId := nextId + 1;
      rejecters := rejecters + [w];
      waiters := waiters[t := (if t in waiters then waiters[t] else []) + [w]];
      return Later(w);
    }

    method Expire(w: Waiter)
      modifies this
      ensures State() == Expired(old(State()), w)
    {
      if w in rejecters {
        Take(w);
        log := log + [Refused(w, TimedOut)];
      }
    }
  }

  // ---- what every step keeps -------------------------------------------------------

  ghost predicate Settles(e: Entry, w: Waiter) {
    (e.Got? || e.Refused?) && e.waiter == w
  }

  ghost predicate Unsettled(log: seq<Entry>, w: Waiter) {
    forall i :: 0 <= i < |log| ==> !Settles(log[i], w)
  }

  /** No waiter is settled twice. */
  ghost predicate SettledOnce(log: seq<Entry>) {
    forall i, j, w :: 0 <= i < j < |log| && Settles(log[i], w) ==> !Settles(log[j], w)
  }

  /** What waits in a queue is of its kind, and excludes a handler and a waiter for it. */
  ghost predicate QueuesLast(s: Inbox) {
    && (forall t :: Queue(s, t) != [] ==> Line(s, t) == [] && t !in s.handlers)
    && (forall t, m :: m in Queue(s, t) ==> Kind(m) == t)
  }

  /** Those who wait are the ones a failure would reach, each in one line, in no line twice. */
  ghost predicate LinesMatch(s: Inbox) {
    && (forall t, w :: w in Line(s, t) <==> w in s.rejecters && w.tag == t)
    && NoDuplicates(s.rejecters) && (forall t :: NoDuplicates(Line(s, t)))
    && (s.failure.Some? ==> s.rejecters == [])
  }

  ghost predicate WaitersOpen(s: Inbox) {
    && SettledOnce(s.log)
    && (forall w: Waiter :: w in s.rejecters ==> w.id < s.nextId && Unsettled(s.log, w))
    && (forall w: Waiter :: w.id >= s.nextId ==> Unsettled(s.log, w))
  }

  ghost predicate Consistent(s: Inbox) {
    QueuesLast(s) && LinesMatch(s) && WaitersOpen(s)
  }

  lemma {:induction false} WithoutFacts(s: seq<Waiter>, w: Waiter)
    requires NoDuplicates(s)
    ensures NoDuplicates(Without(s, w)) && forall x :: x in Without(s, w) <==> x in s && x != w
  {
    if s != [] {
      var rest := s[1..];
      assert forall i, j :: 0 <= i < j < |rest| ==> rest[i] == s[i + 1] && rest[j] == s[j + 1];
      assert forall x :: x in rest <==> x in s && x != s[0];
      WithoutFacts(rest, w);
      if s[0] != w {
        var out := Without(rest, w);
        assert forall i :: 0 <= i < |out| ==> out[i] in out;
      }
    }
  }

  lemma CleanUpKeepsLines(s: Inbox, w: Waiter)
    requires LinesMatch(s)
    ensures LinesMatch(CleanUp(s, w)) && (forall x :: x in CleanUp(s, w).rejecters <==> x in s.rejecters && x != w)
    ensures forall t :: Line(s, t) == [] ==> Line(CleanUp(s, w), t) == []
  {
    var s' := CleanUp(s, w);
    WithoutFacts(s.rejecters, w);
    WithoutFacts(Line(s, w.tag), w);
    EmptyLine(w);
    assert forall t :: Line(s', t) == if t == w.tag then Without(Line(s, t), w) else Line(s, t);
  }

  lemma {:induction false} EmptyLine(w: Waiter)
    ensures Without([], w) == []
  {
  }

  lemma SettleKeepsOpen(s: Inbox, s': Inbox, e: Entry, w: Waiter)
    requires WaitersOpen(s) && w in s.rejecters && Settles(e, w)
    requires s'.log == s.log + [e] && s'.nextId == s.nextId && forall x :: x in s'.rejecters ==> x in s.rejecters && x != w
    ensures WaitersOpen(s')
  {
    forall x | x in s'.rejecters || x.id >= s.nextId
      ensures Unsettled(s'.log, x)
    {
      assert x != w;
    }
    assert Unsettled(s.log, w);
  }

  lemma SettledKeeps(s: Inbox, w: Waiter, e: Entry)
    requires Consistent(s) && w in s.rejecters && Settles(e, w)
    ensures Consistent(CleanUp(s, w).(log := s.log + [e]))
  {
    hide WaitersOpen, LinesMatch, Settles;
    CleanUpKeepsLines(s, w);
    var s' := CleanUp(s, w).(log := s.log + [e]);
    LogAside(CleanUp(s, w), s'.log);
    SettleKeepsOpen(s, s', e, w);
    assert forall t :: Queue(s', t) == Queue(s, t) && Line(s', t) == Line(CleanUp(s, w), t);
  }

  lemma LogAside(s: Inbox, log: seq<Entry>)
    requires LinesMatch(s)
    ensures LinesMatch(s.(log := log))
  {
    assert forall t :: Line(s.(log := log), t) == Line(s, t);
  }

  lemma {:induction false} RefuseAllKeeps(s: Inbox, ws: seq<Waiter>, code: FailCode)
    requires Consistent(s) && NoDuplicates(ws) && forall w :: w in ws ==> w in s.rejecters
    ensures var s' := RefuseAll(s, ws, code);
      && Consistent(s') && s'.failure == s.failure && s'.handlers == s.handlers && s'.queued == s.queued && s'.nextId == s.nextId
      && forall w :: w in s'.rejecters <==> w in s.rejecters && w !in ws
  {
    hide Consistent, CleanUp;
    if |ws| > 0 {
      var before, w := ws[..|ws| - 1], ws[|ws| - 1];
      RefuseAllKeeps(s, before, code);
      assert w !in before;
      RefuseOneKeeps(RefuseAll(s, before, code), w, code);
    }
  }

  lemma RefuseOneKeeps(s: Inbox, w: Waiter, code: FailCode)
    requires Consistent(s) && w in s.rejecters
    ensures var s' := Refuse(s, w, code);
      && Consistent(s') && s'.failure == s.failure && s'.handlers == s.handlers && s'.queued == s.queued && s'.nextId == s.nextId
      && forall x :: x in s'.rejecters <==> x in s.rejecters && x != w
  {
    hide WaitersOpen, QueuesLast;
    CleanUpKeepsLines(s, w);
    hide LinesMatch;
    SettledKeeps(s, w, Refused(w, code));
  }

  /** A failure refuses everyone who waits. */
  lemma FailedKeeps(s: Inbox, code: FailCode)
    requires Consistent(s)
    ensures var s' := Failed(s, code);
      && Consistent(s') && s'.rejecters == [] && s'.failure == (if s.failure.None? then Some(code) else s.failure)
      && s'.handlers == s.handlers && s'.queued == s.queued
  {
    hide RefuseAll, QueuesLast, WaitersOpen;
    var all := s.rejecters;
    RefuseAllKeeps(s, all, code);
    var s1 := RefuseAll(s, all, code);
    var failure := if s.failure.None? then Some(code) else s.failure;
    FailureAside(s, all, code, failure);
    NoteFailure(s1, failure);
    assert Failed(s, code) == s1.(failure := failure, rejecters := []);
  }

  lemma NoteFailure(s: Inbox, failure: Option<FailCode>)
    requires Consistent(s) && forall w :: w !in s.rejecters
    ensures Consistent(s.(failure := failure, rejecters := []))
  {
    hide SettledOnce, Unsettled;
    var s' := s.(failure := failure, rejecters := []);
    forall t
      ensures Line(s', t) == Line(s, t) && Queue(s', t) == Queue(s, t)
      ensures NoDuplicates(Line(s', t)) && forall w :: w !in Line(s', t)
    {
      assert forall w :: w in Line(s, t) ==> w in s.rejecters;
    }
    assert LinesMatch(s');
    assert WaitersOpen(s');
  }

  /** The failure is noted before the refusals, which do not look at it. */
  lemma {:induction false} FailureAside(s: Inbox, ws: seq<Waiter>, code: FailCode, failure: Option<FailCode>)
    ensures RefuseAll(s.(failure := failure), ws, code) == RefuseAll(s, ws, code).(failure := failure)
  {
    if |ws| > 0 {
      FailureAside(s, ws[..|ws| - 1], code, failure);
    }
  }

  // ---- each message once, in order -------------------------------------------------

  function OfKind(ms: seq<Message>, t: Tag): seq<Message> {
    if |ms| == 0 then []
    else OfKind(ms[..|ms| - 1], t) + if Kind(ms[|ms| - 1]) == t then [ms[|ms| - 1]] else []
  }

  /** The messages of a kind that were handed out, to handlers and to whoever expected them, in order. */
  function HandedOut(log: seq<Entry>, t: Tag): seq<Message> {
    if |log| == 0 then []
    else
      var e := log[|log| - 1];
      HandedOut(log[..|log| - 1], t) + if !e.Refused? && Kind(e.message) == t then [e.message] else []
  }

  /** Per kind: what was handed out, then what still waits, is what was accepted. */
  ghost predicate Faithful(s: Inbox, accepted: seq<Message>) {
    forall t :: HandedOut(s.log, t) + Queue(s, t) == OfKind(accepted, t)
  }

  lemma {:induction false} HandedOutAppend(log: seq<Entry>, e: Entry, t: Tag)
    ensures HandedOut(log + [e], t) == HandedOut(log, t) + if !e.Refused? && Kind(e.message) == t then [e.message] else []
  {
    assert (log + [e])[..|log|] == log;
  }

  lemma {:induction false} OfKindAppend(ms: seq<Message>, m: Message, t: Tag)
    ensures OfKind(ms + [m], t) == OfKind(ms, t) + if Kind(m) == t then [m] else []
  {
    assert (ms + [m])[..|ms|] == ms;
  }

  lemma {:induction false} RefuseAllLog(s: Inbox, ws: seq<Waiter>, code: FailCode, t: Tag)
    ensures HandedOut(RefuseAll(s, ws, code).log, t) == HandedOut(s.log, t)
  {
    if |ws| > 0 {
      RefuseAllLog(s, ws[..|ws| - 1], code, t);
      HandedOutAppend(RefuseAll(s, ws[..|ws| - 1], code).log, Refused(ws[|ws| - 1], code), t);
    }
  }

  lemma FailedFaithful(s: Inbox, code: FailCode, accepted: seq<Message>)
    requires Consistent(s) && Faithful(s, accepted)
    ensures Faithful(Failed(s, code), accepted)
  {
    FailedKeeps(s, code);
    hide Consistent, RefuseAll, HandedOut, OfKind;
    forall t
      ensures HandedOut(Failed(s, code).log, t) == HandedOut(s.log, t)
    {
      RefuseAllLog(s.(failure := if s.failure.None? then Some(code) else s.failure), s.rejecters, code, t);
    }
  }

  lemma RoutedKeeps(s: Inbox, m: Message, accepted: seq<Message>)
    requires Consistent(s) && Faithful(s, accepted)
    ensures var s' := Routed(s, m);
      Consistent(s') && Faithful(s', accepted + [m]) && s'.failure == s.failure
  {
    var t := Kind(m);
    if t in s.handlers {
      HandlerKeeps(s, m, accepted);
    } else if Line(s, t) != [] {
      WaiterKeeps(s, m, accepted);
    } else {
      QueueKeeps(s, m, accepted);
    }
  }

  lemma LogGrowsOpen(s: Inbox, e: Entry)
    requires Consistent(s) && (e.Handled? || e.AtOnce?)
    ensures Consistent(s.(log := s.log + [e]))
  {
    hide NoDuplicates;
    var s' := s.(log := s.log + [e]);
    assert forall t :: Line(s', t) == Line(s, t) && Queue(s', t) == Queue(s, t);
    assert forall w :: Unsettled(s.log, w) ==> Unsettled(s'.log, w);
  }

  /** What is handed out next is next in order, if nothing of its kind is queued. */
  lemma HandOutFaithful(s: Inbox, s': Inbox, e: Entry, m: Message, accepted: seq<Message>)
    requires Faithful(s, accepted) && Queue(s, Kind(m)) == [] && !e.Refused? && e.message == m
    requires s'.log == s.log + [e] && s'.queued == s.queued
    ensures Faithful(s', accepted + [m])
  {
    hide HandedOut, OfKind;
    forall t
      ensures HandedOut(s'.log, t) + Queue(s', t) == OfKind(accepted + [m], t)
    {
      HandedOutAppend(s.log, e, t);
      OfKindAppend(accepted, m, t);
      assert HandedOut(s.log, t) + Queue(s, t) == OfKind(accepted, t);
      if t != Kind(m) {
        assert HandedOut(s.log, t) + [] == HandedOut(s.log, t);
      }
    }
  }

  lemma HandlerKeeps(s: Inbox, m: Message, accepted: seq<Message>)
    requires Consistent(s) && Faithful(s, accepted) && Kind(m) in s.handlers
    ensures Consistent(Routed(s, m)) && Faithful(Routed(s, m), accepted + [m])
  {
    hide Faithful, WaitersOpen, LinesMatch;
    assert Queue(s, Kind(m)) == [];
    LogGrowsOpen(s, Handled(m));
    HandOutFaithful(s, Routed(s, m), Handled(m), m, accepted);
  }

  lemma WaiterKeeps(s: Inbox, m: Message, accepted: seq<Message>)
    requires Consistent(s) && Faithful(s, accepted) && Kind(m) !in s.handlers && Line(s, Kind(m)) != []
    ensures Consistent(Routed(s, m)) && Faithful(Routed(s, m), accepted + [m])
  {
    hide Faithful, WaitersOpen;
    var t := Kind(m);
    var w := Line(s, t)[0];
    assert w in Line(s, t);
    FirstInLine(s, t);
    assert Queue(s, t) == [];
    SettledKeeps(s, w, Got(w, m));
    HandOutFaithful(s, Routed(s, m), Got(w, m), m, accepted);
  }

  /** Shifting a waiter off its line and then cleaning up is cleaning up. */
  lemma FirstInLine(s: Inbox, t: Tag)
    requires LinesMatch(s) && Line(s, t) != []
    ensures var w := Line(s, t)[0]; CleanUp(s.(waiters := s.waiters[t := s.waiters[t][1..]]), w) == CleanUp(s, w)
  {
    var line := Line(s, t);
    var w := line[0];
    assert w in line;
    assert w !in line[1..];
    WithoutAbsent(line[1..], w);
    assert Without(line, w) == line[1..];
    assert s.waiters[t := line[1..]][t := line[1..]] == s.waiters[t := line[1..]];
  }

  lemma {:induction false} WithoutAbsent(s: seq<Waiter>, w: Waiter)
    requires w !in s
    ensures Without(s, w) == s
  {
    if s != [] {
      WithoutAbsent(s[1..], w);
    }
  }

  lemma QueueKeeps(s: Inbox, m: Message, accepted: seq<Message>)
    requires Consistent(s) && Faithful(s, accepted) && Kind(m) !in s.handlers && Line(s, Kind(m)) == []
    ensures Consistent(Routed(s, m)) && Faithful(Routed(s, m), accepted + [m])
  {
    hide NoDuplicates, SettledOnce, Unsettled, HandedOut, OfKind;
    var s' := Routed(s, m);
    assert forall t :: Line(s', t) == Line(s, t);
    assert forall t :: Queue(s', t) == if t == Kind(m) then Queue(s, t) + [m] else Queue(s, t);
    forall t
      ensures HandedOut(s'.log, t) + Queue(s', t) == OfKind(accepted + [m], t)
    {
      OfKindAppend(accepted, m, t);
      assert HandedOut(s.log, t) + Queue(s, t) == OfKind(accepted, t);
      assert HandedOut(s.log, t) + (Queue(s, t) + [m]) == HandedOut(s.log, t) + Queue(s, t) + [m];
    }
  }

  lemma {:induction false} HandleAllConsistent(s: Inbox, ms: seq<Message>)
    requires Consistent(s)
    ensures Consistent(s.(log := HandleAll(s.log, ms)))
  {
    hide Consistent;
    if |ms| > 0 {
      HandleAllConsistent(s, ms[..|ms| - 1]);
      LogGrowsOpen(s.(log := HandleAll(s.log, ms[..|ms| - 1])), Handled(ms[|ms| - 1]));
    }
  }

  lemma {:induction false} HandleAllHandsOut(log: seq<Entry>, ms: seq<Message>, kind: Tag, t: Tag)
    requires forall m :: m in ms ==> Kind(m) == kind
    ensures HandedOut(HandleAll(log, ms), t) == HandedOut(log, t) + if t == kind then ms else []
  {
    if |ms| > 0 {
      var before, m := ms[..|ms| - 1], ms[|ms| - 1];
      HandleAllHandsOut(log, before, kind, t);
      HandedOutAppend(HandleAll(log, before), Handled(m), t);
      assert m in ms;
      hide HandedOut, HandleAll;
      assert before + [m] == ms;
    }
  }

  lemma RegisteredKeeps(s: Inbox, t: Tag, accepted: seq<Message>)
    requires Consistent(s) && Faithful(s, accepted)
    ensures Consistent(Registered(s, t)) && Faithful(Registered(s, t), accepted)
  {
    hide HandedOut, OfKind, HandleAll;
    var q := Queue(s, t);
    forall k
      ensures HandedOut(HandleAll(s.log, q), k) == HandedOut(s.log, k) + if k == t then q else []
    {
      HandleAllHandsOut(s.log, q, t, k);
    }
    HandleAllConsistent(s, q);
    var s' := Registered(s, t);
    OpenQueue(s.(log := s'.log), t);
    forall k
      ensures HandedOut(s'.log, k) + Queue(s', k) == OfKind(accepted, k)
    {
      assert HandedOut(s.log, k) + Queue(s, k) == OfKind(accepted, k);
    }
  }

  lemma OpenQueue(s: Inbox, t: Tag)
    requires Consistent(s)
    ensures Consistent(s.(handlers := s.handlers + {t}, queued := s.queued - {t}))
  {
    hide NoDuplicates, SettledOnce, Unsettled;
    var s' := s.(handlers := s.handlers + {t}, queued := s.queued - {t});
    assert forall k :: Line(s', k) == Line(s, k) && Queue(s', k) == if k == t then [] else Queue(s, k);
  }

  lemma ExpectedKeeps(s: Inbox, t: Tag, accepted: seq<Message>)
    requires Consistent(s) && Faithful(s, accepted)
    ensures Consistent(Expected(s, t)) && Faithful(Expected(s, t), accepted) && Expected(s, t).failure == s.failure
  {
    if s.failure.None? && t !in s.handlers {
      if Queue(s, t) != [] {
        AtOnceKeeps(s, t, accepted);
      } else {
        JoinKeeps(s, t);
      }
    }
  }

  lemma AtOnceKeeps(s: Inbox, t: Tag, accepted: seq<Message>)
    requires Consistent(s) && Faithful(s, accepted) && Queue(s, t) != []
    ensures var s' := s.(queued := s.queued[t := s.queued[t][1..]], log := s.log + [AtOnce(s.queued[t][0])]);
      Consistent(s') && Faithful(s', accepted)
  {
    hide Faithful, LinesMatch, WaitersOpen;
    var e := AtOnce(Queue(s, t)[0]);
    LogGrowsOpen(s, e);
    ShorterQueue(s.(log := s.log + [e]), t);
    assert Queue(s, t)[0] in Queue(s, t);
    AtOnceFaithful(s, t, accepted);
  }

  lemma AtOnceFaithful(s: Inbox, t: Tag, accepted: seq<Message>)
    requires Faithful(s, accepted) && Queue(s, t) != [] && Kind(Queue(s, t)[0]) == t
    ensures Faithful(s.(queued := s.queued[t := s.queued[t][1..]], log := s.log + [AtOnce(s.queued[t][0])]), accepted)
  {
    hide HandedOut, OfKind;
    var q, e := Queue(s, t), AtOnce(Queue(s, t)[0]);
    var s' := s.(queued := s.queued[t := q[1..]], log := s.log + [e]);
    forall k
      ensures HandedOut(s'.log, k) + Queue(s', k) == OfKind(accepted, k)
    {
      HandedOutAppend(s.log, e, k);
      assert HandedOut(s.log, k) + Queue(s, k) == OfKind(accepted, k);
      assert k == t ==> HandedOut(s.log, k) + [q[0]] + q[1..] == HandedOut(s.log, k) + q;
      assert HandedOut(s.log, k) + [] == HandedOut(s.log, k);
    }
  }

  lemma ShorterQueue(s: Inbox, t: Tag)
    requires Consistent(s) && Queue(s, t) != []
    ensures Consistent(s.(queued := s.queued[t := s.queued[t][1..]]))
  {
    hide NoDuplicates, SettledOnce, Unsettled;
    var s' := s.(queued := s.queued[t := s.queued[t][1..]]);
    assert forall k :: Line(s', k) == Line(s, k) && Queue(s', k) == if k == t then Queue(s, t)[1..] else Queue(s, k);
  }

  lemma JoinKeeps(s: Inbox, t: Tag)
    requires Consistent(s) && s.failure.None? && t !in s.handlers && Queue(s, t) == []
    ensures var w := Waiter(s.nextId, t);
      Consistent(s.(waiters := s.waiters[t := Line(s, t) + [w]], rejecters := s.rejecters + [w], nextId := s.nextId + 1))
  {
    hide LinesMatch, WaitersOpen;
    var w := Waiter(s.nextId, t);
    var s' := s.(waiters := s.waiters[t := Line(s, t) + [w]], rejecters := s.rejecters + [w], nextId := s.nextId + 1);
    JoinLines(s, s', w);
    JoinOpen(s, s', w);
    assert forall k :: Queue(s', k) == Queue(s, k) && (k != t ==> Line(s', k) == Line(s, k));
  }

  lemma JoinOpen(s: Inbox, s': Inbox, w: Waiter)
    requires WaitersOpen(s) && w.id == s.nextId && s'.log == s.log && s'.rejecters == s.rejecters + [w] && s'.nextId == s.nextId + 1
    ensures WaitersOpen(s') && w !in s.rejecters
  {
    hide SettledOnce, Unsettled;
  }

  lemma JoinLines(s: Inbox, s': Inbox, w: Waiter)
    requires LinesMatch(s) && WaitersOpen(s) && w.id == s.nextId && s.failure.None? && s'.failure.None?
    requires s'.waiters == s.waiters[w.tag := Line(s, w.tag) + [w]] && s'.rejecters == s.rejecters + [w]
    ensures LinesMatch(s')
  {
    hide SettledOnce, Unsettled;
    assert w !in s.rejecters && w !in Line(s, w.tag);
    NoDuplicatesAppend(s.rejecters, w);
    NoDuplicatesAppend(Line(s, w.tag), w);
    hide NoDuplicates;
    forall k
      ensures NoDuplicates(Line(s', k)) && forall x :: x in Line(s', k) <==> x in s'.rejecters && x.tag == k
    {
      assert Line(s', k) == if k == w.tag then Line(s, k) + [w] else Line(s, k);
    }
  }

  lemma ExpiredKeeps(s: Inbox, w: Waiter, accepted: seq<Message>)
    requires Consistent(s) && Faithful(s, accepted)
    ensures Consistent(Expired(s, w)) && Faithful(Expired(s, w), accepted) && Expired(s, w).failure == s.failure
  {
    if w in s.rejecters {
      SettledKeeps(s, w, Refused(w, TimedOut));
      hide Consistent, HandedOut, OfKind;
      forall t
        ensures HandedOut(s.log + [Refused(w, TimedOut)], t) == HandedOut(s.log, t)
      {
        HandedOutAppend(s.log, Refused(w, TimedOut), t);
      }
    }
  }

  // ---- what each call means to its caller ------------------------------------------

  /** Another kind's queue and line are as they were. */
  ghost predicate OthersKept(s: Inbox, s': Inbox, t: Tag) {
    forall k :: k != t ==> Queue(s', k) == Queue(s, k) && Line(s', k) == Line(s, k)
  }

  /**
   Refused after a failure or beside a handler, and then nothing changes; answered at once with the oldest
   message that was queued, which leaves the queue; otherwise promised, and the promise is a new waiter,
   last in the line.
   */
  lemma ExpectMeans(s: Inbox, t: Tag)
    requires Consistent(s)
    ensures var s', a := Expected(s, t), AnswerTo(s, t);
      && (a.No? <==> s.failure.Some? || t in s.handlers)
      && (a.No? ==> s' == s && a.code == if s.failure.Some? then s.failure.value else Peer(Internal))
      && (forall m :: a == Now(m) <==> s'.log == s.log + [AtOnce(m)])
      && (a.Now? ==> Queue(s, t) == [a.message] + Queue(s', t) && Line(s', t) == Line(s, t) && s'.rejecters == s.rejecters)
      && (a.Later? ==>
            && Queue(s, t) == [] && s'.log == s.log && a.waiter.tag == t && a.waiter !in s.rejecters && Unsettled(s.log, a.waiter)
            && s'.rejecters == s.rejecters + [a.waiter] && Line(s', t) == Line(s, t) + [a.waiter] && Queue(s', t) == [])
      && OthersKept(s, s', t) && s'.handlers == s.handlers && s'.failure == s.failure
  {
    hide NoDuplicates, SettledOnce, Unsettled;
    var s', a := Expected(s, t), AnswerTo(s, t);
    if a.Now? {
      assert s'.log[|s.log|] == AtOnce(a.message);
    } else {
      assert |s'.log| == |s.log|;
    }
  }

  /** A handler gets the message; else the one who has waited longest for its kind; else it joins the end of the queue. */
  lemma RoutedMeans(s: Inbox, m: Message)
    requires Consistent(s)
    ensures var s', t := Routed(s, m), Kind(m);
      && (t in s.handlers ==> s' == s.(log := s.log + [Handled(m)]))
      && (t !in s.handlers && Line(s, t) != [] ==>
            s'.log == s.log + [Got(Line(s, t)[0], m)] && Line(s', t) == Line(s, t)[1..] && Queue(s', t) == Queue(s, t))
      && (t !in s.handlers && Line(s, t) == [] ==>
            s'.log == s.log && Queue(s', t) == Queue(s, t) + [m] && Line(s', t) == [])
      && OthersKept(s, s', t) && s'.handlers == s.handlers && s'.failure == s.failure
  {
    hide SettledOnce, Unsettled;
    var t := Kind(m);
    if t !in s.handlers && Line(s, t) != [] {
      var w, rest := Line(s, t)[0], Line(s, t)[1..];
      assert w in Line(s, t) && w.tag == t;
      NotThere(rest, w);
    }
  }

  lemma {:induction false} NotThere(ws: seq<Waiter>, w: Waiter)
    requires w !in ws
    ensures Without(ws, w) == ws
  {
    if ws != [] {
      NotThere(ws[1..], w);
    }
  }

  function Refusals(ws: seq<Waiter>, code: FailCode): seq<Entry> {
    seq(|ws|, i requires 0 <= i < |ws| => Refused(ws[i], code))
  }

  lemma {:induction false} RefuseAllLogs(s: Inbox, ws: seq<Waiter>, code: FailCode)
    ensures RefuseAll(s, ws, code).log == s.log + Refusals(ws, code)
  {
    hide CleanUp;
    if |ws| > 0 {
      RefuseAllLogs(s, ws[..|ws| - 1], code);
      assert Refusals(ws, code) == Refusals(ws[..|ws| - 1], code) + [Refused(ws[|ws| - 1], code)];
    }
  }

  /** Everyone who waits hears of this failure, in the order they came; only the first failure is kept; the queues stay. */
  lemma FailedMeans(s: Inbox, code: FailCode)
    requires Consistent(s)
    ensures var s' := Failed(s, code);
      && s'.log == s.log + Refusals(s.rejecters, code) && s'.rejecters == [] && (forall t :: Line(s', t) == [])
      && s'.failure == (if s.failure.Some? then s.failure else Some(code)) && s'.queued == s.queued && s'.handlers == s.handlers
  {
    hide RefuseAll, QueuesLast, WaitersOpen, NoDuplicates;
    FailedKeeps(s, code);
    RefuseAllLogs(s.(failure := if s.failure.None? then Some(code) else s.failure), s.rejecters, code);
    var s' := Failed(s, code);
    forall t
      ensures Line(s', t) == []
    {
      assert forall w :: w in Line(s', t) ==> w in s'.rejecters;
      if Line(s', t) != [] {
        SomeoneWaits(Line(s', t));
        assert false;
      }
    }
  }

  lemma SomeoneWaits(ws: seq<Waiter>)
    requires ws != []
    ensures exists w :: w in ws
  {
    assert ws[0] in ws;
  }

  /** A timer that goes off in time refuses its own waiter and no other; one that is too late does nothing. */
  lemma ExpiredMeans(s: Inbox, w: Waiter)
    requires Consistent(s)
    ensures var s' := Expired(s, w);
      && (w !in s.rejecters ==> s' == s)
      && (w in s.rejecters ==> s'.log == s.log + [Refused(w, TimedOut)])
      && (forall x :: x in s'.rejecters <==> x in s.rejecters && x != w)
      && (forall t, x :: x in Line(s', t) <==> x in Line(s, t) && x != w)
      && s'.queued == s.queued && s'.handlers == s.handlers && s'.failure == s.failure
  {
    hide CleanUp, WaitersOpen, QueuesLast, LinesMatch;
    CleanedUp(s, w);
    var s' := Expired(s, w);
    if w !in s.rejecters {
      NotInLine(s, w);
    } else {
      assert forall t :: Line(s', t) == Line(CleanUp(s, w), t);
    }
  }

  lemma NotInLine(s: Inbox, w: Waiter)
    requires LinesMatch(s) && w !in s.rejecters
    ensures forall t :: w !in Line(s, t)
  {
    hide NoDuplicates;
  }

  /** Cleaning up takes one waiter off both lists and touches nothing else. */
  lemma CleanedUp(s: Inbox, w: Waiter)
    requires LinesMatch(s)
    ensures var s' := CleanUp(s, w);
      && (forall x :: x in s'.rejecters <==> x in s.rejecters && x != w)
      && (forall t, x :: x in Line(s', t) <==> x in Line(s, t) && x != w)
      && s'.queued == s.queued && s'.handlers == s.handlers && s'.failure == s.failure && s'.log == s.log
  {
    hide NoDuplicates, CleanUp;
    CleanUpKeepsLines(s, w);
    CleanUpFrame(s, w);
    var s' := CleanUp(s, w);
    forall t, x
      ensures x in Line(s', t) <==> x in Line(s, t) && x != w
    {
      assert x in Line(s', t) <==> x in s'.rejecters && x.tag == t;
    }
  }

  lemma CleanUpFrame(s: Inbox, w: Waiter)
    ensures var s' := CleanUp(s, w); s'.queued == s.queued && s'.handlers == s.handlers && s'.failure == s.failure && s'.log == s.log
  {
  }

  function HandledAll(ms: seq<Message>): seq<Entry> {
    seq(|ms|, i requires 0 <= i < |ms| => Handled(ms[i]))
  }

  lemma {:induction false} HandleAllLogs(log: seq<Entry>, ms: seq<Message>)
    ensures HandleAll(log, ms) == log + HandledAll(ms)
  {
    if |ms| > 0 {
      HandleAllLogs(log, ms[..|ms| - 1]);
      assert HandledAll(ms) == HandledAll(ms[..|ms| - 1]) + [Handled(ms[|ms| - 1])];
    }
  }

  /** A new handler gets what was queued, in order, and from then on nothing of its kind is queued. */
  lemma RegisteredMeans(s: Inbox, t: Tag)
    ensures var s' := Registered(s, t);
      && s'.log == s.log + HandledAll(Queue(s, t)) && Queue(s', t) == [] && s'.handlers == s.handlers + {t}
      && (forall k :: Line(s', k) == Line(s, k)) && OthersKept(s, s', t) && s'.failure == s.failure && s'.rejecters == s.rejecters
  {
    hide HandleAll;
    HandleAllLogs(s.log, Queue(s, t));
  }

  // ---- waiters are served in turn --------------------------------------------------

  ghost predicate Increasing(ws: seq<Waiter>) {
    forall i, j :: 0 <= i < j < |ws| ==> ws[i].id < ws[j].id
  }

  /** Those who got a message came before everyone who still waits for its kind, and got theirs in the order they came. */
  ghost predicate InTurn(s: Inbox) {
    (forall t :: Increasing(Line(s, t))) && (forall t :: ServedFirst(s.log, t, Line(s, t))) && ServedInOrder(s.log, s.nextId)
  }

  ghost predicate ServedFirst(log: seq<Entry>, t: Tag, line: seq<Waiter>) {
    forall i, w :: 0 <= i < |log| && log[i].Got? && log[i].waiter.tag == t && w in line ==> log[i].waiter.id < w.id
  }

  ghost predicate ServedInOrder(log: seq<Entry>, nextId: nat) {
    && (forall i :: 0 <= i < |log| && log[i].Got? ==> log[i].waiter.id < nextId)
    && (forall i, j :: 0 <= i < j < |log| && log[i].Got? && log[j].Got? && log[i].waiter.tag == log[j].waiter.tag ==>
          log[i].waiter.id < log[j].waiter.id)
  }

  /** Every promise made is still open or was settled. */
  ghost predicate PromisesKept(s: Inbox) {
    forall id: nat :: id < s.nextId ==> PromiseKept(s, id)
  }

  ghost predicate PromiseKept(s: Inbox, id: nat) {
    exists w: Waiter :: StandsOrSettled(s, w) && w.id == id
  }

  ghost predicate StandsOrSettled(s: Inbox, w: Waiter) {
    w in s.rejecters || !Unsettled(s.log, w)
  }

  /** The lines only lose people, and the log gains nobody who got a message. */
  lemma TurnsStay(s: Inbox, s': Inbox, more: seq<Entry>)
    requires InTurn(s) && s'.nextId == s.nextId && s'.log == s.log + more && forall i :: 0 <= i < |more| ==> !more[i].Got?
    requires forall t :: Increasing(Line(s', t)) && forall w :: w in Line(s', t) ==> w in Line(s, t)
    ensures InTurn(s')
  {
    hide Increasing;
    assert forall i :: 0 <= i < |s'.log| ==> s'.log[i] == if i < |s.log| then s.log[i] else more[i - |s.log|];
    assert forall t :: ServedFirst(s.log, t, Line(s, t));
  }

  lemma {:induction false} WithoutIncreasing(ws: seq<Waiter>, w: Waiter)
    requires Increasing(ws)
    ensures Increasing(Without(ws, w)) && forall x :: x in Without(ws, w) ==> x in ws
  {
    if ws != [] {
      var rest := ws[1..];
      assert forall i, j :: 0 <= i < j < |rest| ==> rest[i] == ws[i + 1] && rest[j] == ws[j + 1];
      WithoutIncreasing(rest, w);
      FirstIsLeast(ws);
      hide Increasing;
      if ws[0] != w {
        LeastFirst(ws[0], Without(rest, w));
      }
    }
  }

  lemma FirstIsLeast(ws: seq<Waiter>)
    requires Increasing(ws) && ws != []
    ensures forall x :: x in ws[1..] ==> ws[0].id < x.id
  {
    assert forall i :: 0 <= i < |ws[1..]| ==> ws[1..][i] == ws[i + 1];
  }

  lemma LeastFirst(w: Waiter, ws: seq<Waiter>)
    requires Increasing(ws) && forall x :: x in ws ==> w.id < x.id
    ensures Increasing([w] + ws)
  {
    assert forall i :: 0 <= i < |ws| ==> ws[i] in ws;
  }

  lemma CleanUpTurns(s: Inbox, w: Waiter)
    requires forall t :: Increasing(Line(s, t))
    ensures forall t :: Increasing(Line(CleanUp(s, w), t)) && forall x :: x in Line(CleanUp(s, w), t) ==> x in Line(s, t)
  {
    hide Increasing, Without;
    WithoutIncreasing(Line(s, w.tag), w);
    assert forall t :: Line(CleanUp(s, w), t) == if t == w.tag && t in s.waiters then Without(Line(s, t), w) else Line(s, t);
  }

  lemma {:induction false} RefuseAllTurns(s: Inbox, ws: seq<Waiter>, code: FailCode)
    requires InTurn(s)
    ensures InTurn(RefuseAll(s, ws, code))
  {
    hide InTurn, CleanUp;
    if |ws| > 0 {
      RefuseAllTurns(s, ws[..|ws| - 1], code);
      RefuseTurns(RefuseAll(s, ws[..|ws| - 1], code), ws[|ws| - 1], code);
    }
  }

  lemma RefuseTurns(s: Inbox, w: Waiter, code: FailCode)
    requires InTurn(s)
    ensures InTurn(Refuse(s, w, code))
  {
    hide Increasing;
    CleanUpTurns(s, w);
    var s' := Refuse(s, w, code);
    assert forall t :: Line(s', t) == Line(CleanUp(s, w), t);
    TurnsStay(s, s', [Refused(w, code)]);
  }

  /** The one who has waited longest gets the message. */
  lemma ServedTurns(s: Inbox, s': Inbox, t: Tag, m: Message)
    requires InTurn(s) && Consistent(s) && Line(s, t) != [] && s'.log == s.log + [Got(Line(s, t)[0], m)] && s'.nextId == s.nextId
    requires Line(s', t) == Line(s, t)[1..] && forall k :: k != t ==> Line(s', k) == Line(s, k)
    ensures InTurn(s')
  {
    hide Consistent, Increasing, ServedFirst, ServedInOrder;
    var w, line := Line(s, t)[0], Line(s, t);
    LineFacts(s, t);
    FirstServed(s.log, s.nextId, t, line, m);
    forall k | k != t
      ensures ServedFirst(s'.log, k, Line(s', k))
    {
      OtherServed(s.log, k, Line(s, k), Got(w, m));
    }
  }

  lemma LineFacts(s: Inbox, t: Tag)
    requires Consistent(s)
    ensures forall w :: w in Line(s, t) ==> w.tag == t && w.id < s.nextId
  {
    hide SettledOnce, Unsettled, NoDuplicates, QueuesLast;
  }

  lemma OtherServed(log: seq<Entry>, t: Tag, line: seq<Waiter>, e: Entry)
    requires ServedFirst(log, t, line) && (e.Got? ==> e.waiter.tag != t)
    ensures ServedFirst(log + [e], t, line)
  {
  }

  lemma FirstServed(log: seq<Entry>, nextId: nat, t: Tag, line: seq<Waiter>, m: Message)
    requires Increasing(line) && line != [] && ServedFirst(log, t, line) && ServedInOrder(log, nextId)
    requires line[0].tag == t && line[0].id < nextId
    ensures Increasing(line[1..]) && ServedFirst(log + [Got(line[0], m)], t, line[1..])
    ensures ServedInOrder(log + [Got(line[0], m)], nextId)
  {
    hide ServedInOrder, Increasing;
    FirstIsLeast(line);
    assert line[0] in line && forall w :: w in line[1..] ==> w in line;
    RestIncreases(line);
    NextInOrder(log, nextId, line[0], m);
  }

  lemma RestIncreases(line: seq<Waiter>)
    requires Increasing(line) && line != []
    ensures Increasing(line[1..])
  {
    assert forall i :: 0 <= i < |line[1..]| ==> line[1..][i] == line[i + 1];
  }

  lemma NextInOrder(log: seq<Entry>, nextId: nat, w: Waiter, m: Message)
    requires ServedInOrder(log, nextId) && ServedFirst(log, w.tag, [w]) && w.id < nextId
    ensures ServedInOrder(log + [Got(w, m)], nextId)
  {
    assert w in [w];
  }

  lemma JoinedTurns(s: Inbox, s': Inbox, w: Waiter)
    requires InTurn(s) && Consistent(s) && w.id == s.nextId && s'.nextId == s.nextId + 1 && s'.log == s.log
    requires Line(s', w.tag) == Line(s, w.tag) + [w] && forall k :: k != w.tag ==> Line(s', k) == Line(s, k)
    ensures InTurn(s')
  {
    hide Consistent, Increasing, ServedFirst, ServedInOrder;
    LineFacts(s, w.tag);
    LastJoins(s.log, s.nextId, Line(s, w.tag), w);
  }

  lemma LastJoins(log: seq<Entry>, nextId: nat, line: seq<Waiter>, w: Waiter)
    requires Increasing(line) && ServedFirst(log, w.tag, line) && ServedInOrder(log, nextId)
    requires w.id == nextId && forall x :: x in line ==> x.id < nextId
    ensures Increasing(line + [w]) && ServedFirst(log, w.tag, line + [w]) && ServedInOrder(log, nextId + 1)
  {
    assert forall i :: 0 <= i < |line| ==> line[i] in line;
  }

  // ---- runs ------------------------------------------------------------------------

  datatype Action = Accepts(raw: Json) | Registers(tag: Tag) | Expects(tag: Tag) | TimesOut(waiter: Waiter) | Fails(code: FailCode)

  function Apply(s: Inbox, a: Action): Inbox {
    match a
    case Accepts(raw) => Accepted(s, raw)
    case Registers(t) => Registered(s, t)
    case Expects(t) => Expected(s, t)
    case TimesOut(w) => Expired(s, w)
    case Fails(code) => Failed(s, code)
  }

  function After(acts: seq<Action>): Inbox {
    if |acts| == 0 then EMPTY_INBOX else Apply(After(acts[..|acts| - 1]), acts[|acts| - 1])
  }

  /** The message an action brings in, if it is one to route. */
  function Brings(a: Action): seq<Message> {
    if a.Accepts? && Parse(a.raw).Ok? && !Parse(a.raw).value.Error? then [Parse(a.raw).value] else []
  }

  /** The failure an action reports, if any. */
  function Reports(a: Action): Option<FailCode> {
    match a
    case Fails(code) => Some(code)
    case Accepts(raw) =>
      (match Parse(raw)
       case Err(code) => Some(Peer(code))
       case Ok(m) => if m.Error? then Some(Peer(m.code)) else None)
    case _ => None
  }

  function AllBrought(acts: seq<Action>): seq<Message> {
    if |acts| == 0 then [] else AllBrought(acts[..|acts| - 1]) + Brings(acts[|acts| - 1])
  }

  lemma ApplyKeeps(s: Inbox, a: Action, accepted: seq<Message>)
    requires Consistent(s) && Faithful(s, accepted)
    ensures Consistent(Apply(s, a)) && Faithful(Apply(s, a), accepted + Brings(a))
    ensures Apply(s, a).failure == if s.failure.Some? then s.failure else Reports(a)
  {
    hide Consistent, Faithful, Parse, Expected, Expired, Failed, Routed;
    assert accepted + [] == accepted;
    match a
    case Accepts(raw) =>
      if Brings(a) != [] {
        RoutedKeeps(s, Parse(raw).value, accepted);
      } else {
        var code := Reports(a).value;
        FailedKeeps(s, code);
        FailedFaithful(s, code, accepted);
      }
    case Registers(t) => RegisteredKeeps(s, t, accepted);
    case Expects(t) => ExpectedKeeps(s, t, accepted);
    case TimesOut(w) => ExpiredKeeps(s, w, accepted);
    case Fails(code) =>
      FailedKeeps(s, code);
      FailedFaithful(s, code, accepted);
  }

  /**
   Over any run: per kind, what was handed out followed by what is queued is exactly what was accepted,
   in order; a queue that is not empty excludes a waiter and a handler; no waiter is settled twice, and
   after a failure nobody waits.
   */
  lemma {:induction false} EveryMessageOnceInOrder(acts: seq<Action>)
    ensures Consistent(After(acts)) && Faithful(After(acts), AllBrought(acts))
  {
    hide Apply, Brings;
    if |acts| == 0 {
      EmptyIsConsistent();
    } else {
      EveryMessageOnceInOrder(acts[..|acts| - 1]);
      ApplyKeeps(After(acts[..|acts| - 1]), acts[|acts| - 1], AllBrought(acts[..|acts| - 1]));
    }
  }

  lemma EmptyIsConsistent()
    ensures Consistent(EMPTY_INBOX) && Faithful(EMPTY_INBOX, [])
  {
  }

  function FirstFailure(acts: seq<Action>): Option<FailCode> {
    if acts == [] then None else if Reports(acts[0]).Some? then Reports(acts[0]) else FirstFailure(acts[1..])
  }

  lemma {:induction false} FirstFailureAppend(acts: seq<Action>, a: Action)
    ensures FirstFailure(acts + [a]) == if FirstFailure(acts).Some? then FirstFailure(acts) else Reports(a)
  {
    hide Reports;
    if acts != [] {
      assert (acts + [a])[1..] == acts[1..] + [a];
      FirstFailureAppend(acts[1..], a);
    } else {
      assert [a][1..] == [] && acts + [a] == [a];
    }
  }

  /** The failure an inbox shows is the first one reported, and it stays. */
  lemma {:induction false} FailureIsTheFirst(acts: seq<Action>)
    ensures After(acts).failure == FirstFailure(acts)
  {
    hide Apply, Brings, Reports, Consistent, Faithful;
    if |acts| > 0 {
      var before, a := acts[..|acts| - 1], acts[|acts| - 1];
      FailureIsTheFirst(before);
      EveryMessageOnceInOrder(before);
      ApplyKeeps(After(before), a, AllBrought(before));
      FirstFailureAppend(before, a);
      assert before + [a] == acts;
    }
  }

  lemma RoutedTurns(s: Inbox, m: Message)
    requires Consistent(s) && InTurn(s)
    ensures InTurn(Routed(s, m))
  {
    hide Consistent, InTurn, CleanUp;
    RoutedMeans(s, m);
    var s', t := Routed(s, m), Kind(m);
    RoutedIds(s, m);
    if t in s.handlers {
      SameLinesTurns(s, s', [Handled(m)]);
    } else if Line(s, t) != [] {
      ServedTurns(s, s', t, m);
    } else {
      assert forall k :: Line(s', k) == Line(s, k);
      SameLinesTurns(s, s', []);
    }
  }

  lemma RoutedIds(s: Inbox, m: Message)
    ensures Routed(s, m).nextId == s.nextId
  {
  }

  lemma SameLinesTurns(s: Inbox, s': Inbox, more: seq<Entry>)
    requires InTurn(s) && s'.nextId == s.nextId && s'.log == s.log + more && forall i :: 0 <= i < |more| ==> !more[i].Got?
    requires forall t :: Line(s', t) == Line(s, t)
    ensures InTurn(s')
  {
    hide Increasing;
    TurnsStay(s, s', more);
  }

  lemma FailedTurns(s: Inbox, code: FailCode)
    requires Consistent(s) && InTurn(s)
    ensures InTurn(Failed(s, code))
  {
    hide Consistent, RefuseAll;
    FailedMeans(s, code);
    var noted := s.(failure := if s.failure.None? then Some(code) else s.failure);
    FailedIds(noted, s.rejecters, code);
    hide Increasing;
    assert forall t :: Increasing(Line(Failed(s, code), t)) by {
      NobodyIncreasing();
    }
    TurnsStay(s, Failed(s, code), Refusals(s.rejecters, code));
  }

  lemma NobodyIncreasing()
    ensures Increasing([])
  {
  }

  lemma {:induction false} FailedIds(s: Inbox, ws: seq<Waiter>, code: FailCode)
    ensures RefuseAll(s, ws, code).nextId == s.nextId
  {
    hide CleanUp;
    if |ws| > 0 {
      FailedIds(s, ws[..|ws| - 1], code);
      RefuseIds(RefuseAll(s, ws[..|ws| - 1], code), ws[|ws| - 1], code);
    }
  }

  lemma RefuseIds(s: Inbox, w: Waiter, code: FailCode)
    ensures Refuse(s, w, code).nextId == s.nextId
  {
  }

  lemma ExpectTurns(s: Inbox, t: Tag)
    requires Consistent(s) && InTurn(s)
    ensures InTurn(Expected(s, t))
  {
    hide Consistent, InTurn;
    ExpectMeans(s, t);
    var s', a := Expected(s, t), AnswerTo(s, t);
    if a.Now? {
      SameLinesTurns(s, s', [AtOnce(a.message)]);
    } else if a.Later? {
      JoinedTurns(s, s', a.waiter);
    }
  }

  lemma ApplyTurns(s: Inbox, a: Action)
    requires Consistent(s) && InTurn(s)
    ensures InTurn(Apply(s, a))
  {
    hide Consistent, InTurn, Parse, Expected, Failed, Routed, Registered, Refuse;
    match a
    case Accepts(raw) =>
      if Parse(raw).Ok? && !Parse(raw).value.Error? {
        RoutedTurns(s, Parse(raw).value);
      } else {
        FailedTurns(s, Reports(a).value);
      }
    case Registers(t) =>
      RegisteredMeans(s, t);
      RegisteredIds(s, t);
      SameLinesTurns(s, Registered(s, t), HandledAll(Queue(s, t)));
    case Expects(t) => ExpectTurns(s, t);
    case TimesOut(w) => RefuseTurns(s, w, TimedOut);
    case Fails(code) => FailedTurns(s, code);
  }

  lemma RegisteredIds(s: Inbox, t: Tag)
    ensures Registered(s, t).nextId == s.nextId
  {
  }

  /** Over any run: whoever waits for a kind of message is served in the order in which they asked. */
  lemma {:induction false} WaitersServedInTurn(acts: seq<Action>)
    ensures InTurn(After(acts))
  {
    hide Apply, Consistent, Faithful;
    if |acts| == 0 {
      NobodyIncreasing();
    } else {
      WaitersServedInTurn(acts[..|acts| - 1]);
      EveryMessageOnceInOrder(acts[..|acts| - 1]);
      ApplyTurns(After(acts[..|acts| - 1]), acts[|acts| - 1]);
    }
  }

  // ---- no promise is lost ----------------------------------------------------------

  /** Whoever no longer waits was settled, and the log only grows. */
  lemma PromisesStay(s: Inbox, s': Inbox)
    requires PromisesKept(s) && s'.nextId == s.nextId && s.log <= s'.log
    requires forall w :: w in s.rejecters ==> w in s'.rejecters || !Unsettled(s'.log, w)
    ensures PromisesKept(s')
  {
    hide Unsettled;
    forall id: nat | id < s'.nextId
      ensures PromiseKept(s', id)
    {
      assert PromiseKept(s, id);
      var w: Waiter :| StandsOrSettled(s, w) && w.id == id;
      StaysSettled(s.log, s'.log, w);
      assert StandsOrSettled(s', w);
    }
  }

  lemma StaysSettled(log: seq<Entry>, log': seq<Entry>, w: Waiter)
    requires log <= log'
    ensures !Unsettled(log, w) ==> !Unsettled(log', w)
  {
    if !Unsettled(log, w) {
      var i :| 0 <= i < |log| && Settles(log[i], w);
      assert Settles(log'[i], w);
    }
  }

  lemma {:induction false} RefusedAreSettled(log: seq<Entry>, ws: seq<Waiter>, code: FailCode)
    ensures forall w :: w in ws ==> !Unsettled(log + Refusals(ws, code), w)
  {
    forall w | w in ws
      ensures !Unsettled(log + Refusals(ws, code), w)
    {
      var i :| 0 <= i < |ws| && ws[i] == w;
      assert Settles((log + Refusals(ws, code))[|log| + i], w);
    }
  }

  lemma FailedPromises(s: Inbox, code: FailCode)
    requires Consistent(s) && PromisesKept(s)
    ensures PromisesKept(Failed(s, code))
  {
    hide Consistent, PromisesKept, RefuseAll, Unsettled;
    FailedMeans(s, code);
    FailedIds(s.(failure := if s.failure.None? then Some(code) else s.failure), s.rejecters, code);
    RefusedAreSettled(s.log, s.rejecters, code);
    PromisesStay(s, Failed(s, code));
  }

  lemma OneSettled(log: seq<Entry>, e: Entry, w: Waiter)
    requires Settles(e, w)
    ensures !Unsettled(log + [e], w)
  {
    assert Settles((log + [e])[|log|], w);
  }

  lemma RoutedPromises(s: Inbox, m: Message)
    requires Consistent(s) && PromisesKept(s)
    ensures PromisesKept(Routed(s, m))
  {
    hide PromisesKept, Unsettled, WaitersOpen, QueuesLast;
    RoutedMeans(s, m);
    RoutedIds(s, m);
    var s', t := Routed(s, m), Kind(m);
    if t !in s.handlers && Line(s, t) != [] {
      var w := Line(s, t)[0];
      OneSettled(s.log, Got(w, m), w);
      WithoutFacts(s.rejecters, w);
    }
    PromisesStay(s, s');
  }

  lemma ExpiredPromises(s: Inbox, w: Waiter)
    requires Consistent(s) && PromisesKept(s)
    ensures PromisesKept(Expired(s, w))
  {
    hide PromisesKept, Consistent, Unsettled, CleanUp;
    ExpiredMeans(s, w);
    OneSettled(s.log, Refused(w, TimedOut), w);
    RefuseIds(s, w, TimedOut);
    PromisesStay(s, Expired(s, w));
  }

  lemma ExpectPromises(s: Inbox, t: Tag)
    requires Consistent(s) && PromisesKept(s)
    ensures PromisesKept(Expected(s, t))
  {
    hide Consistent, Unsettled;
    ExpectMeans(s, t);
    var s', a := Expected(s, t), AnswerTo(s, t);
    if a.Later? {
      ExpectIds(s, t);
      forall id: nat | id < s'.nextId
        ensures PromiseKept(s', id)
      {
        if id == s.nextId {
          assert StandsOrSettled(s', a.waiter) && a.waiter.id == id;
        } else {
          assert PromiseKept(s, id);
          var w: Waiter :| StandsOrSettled(s, w) && w.id == id;
          assert StandsOrSettled(s', w);
        }
      }
    } else {
      PromisesStay(s, s');
    }
  }

  lemma ExpectIds(s: Inbox, t: Tag)
    ensures AnswerTo(s, t).Later? ==> AnswerTo(s, t).waiter.id == s.nextId && Expected(s, t).nextId == s.nextId + 1
    ensures !AnswerTo(s, t).Later? ==> Expected(s, t).nextId == s.nextId
  {
  }

  lemma ApplyPromises(s: Inbox, a: Action)
    requires Consistent(s) && PromisesKept(s)
    ensures PromisesKept(Apply(s, a))
  {
    hide Consistent, PromisesKept, Parse, Expected, Failed, Routed, Registered, Expired, Unsettled;
    match a
    case Accepts(raw) =>
      if Parse(raw).Ok? && !Parse(raw).value.Error? {
        RoutedPromises(s, Parse(raw).value);
      } else {
        FailedPromises(s, Reports(a).value);
      }
    case Registers(t) =>
      RegisteredMeans(s, t);
      RegisteredIds(s, t);
      PromisesStay(s, Registered(s, t));
    case Expects(t) => ExpectPromises(s, t);
    case TimesOut(w) => ExpiredPromises(s, w);
    case Fails(code) => FailedPromises(s, code);
  }

  /** Over any run: everyone who was promised a message still waits for it or was told how it ended. */
  lemma {:induction false} NoPromiseLost(acts: seq<Action>)
    ensures PromisesKept(After(acts))
  {
    hide Apply, Consistent, Faithful;
    if |acts| > 0 {
      NoPromiseLost(acts[..|acts| - 1]);
      EveryMessageOnceInOrder(acts[..|acts| - 1]);
      ApplyPromises(After(acts[..|acts| - 1]), acts[|acts| - 1]);
    }
  }
}
