// What every run of the source keeps, and what it keeps unless one of two races occurs.

module SourceSafety {
  import opened Common
  import opened ResultRecord
  import opened SourceProtocol
  import Runs

  ghost predicate AtMostOne(bs: set<Binding>) {
    forall b, c :: b in bs && c in bs ==> b == c
  }

  // ----- What holds in every state

  ghost predicate ThreadOk(s: State, t: nat)
    requires t in s.threads
  {
    var h := s.threads[t];
    && h.binding in s.sent && Names(h.result, h.binding)
    && (h.stage.Recorded? ==> h.binding in s.disk.results && h.needs == s.disk.results[h.binding].needs
                              && Consumed(h.result) == s.disk.results[h.binding].consumed)
  }

  ghost predicate NoteMatches(s: State, b: Binding) {
    && b in s.disk.results
    && s.note == Some(Note(s.disk.results[b].consumed, s.disk.results[b].needs, b.intent))
  }

  ghost predicate OfIntent(bs: set<Binding>, intent: string) {
    forall b :: b in bs ==> b.intent == intent
  }

  ghost predicate Carries(results: map<Binding, Receipt>, b: Binding, intent: string) {
    b in results && results[b].needs && b.intent == intent
  }

  // A receipt of the results directory: of the intent's one request, and its hash is the
  // stable part of a result that names the order.
  ghost predicate ResultOk(cfg: Config, b: Binding, filed: Receipt) {
    && (filed.needs ==> filed.consumed) && Names(filed.hash, b) && SameResult(filed, filed.hash)
    && b.intent in cfg.requests && cfg.requests[b.intent] == b.request
  }

  ghost predicate FilesOk(s: State) {
    && s.disk.receipts <= s.sent && s.disk.settlements <= s.disk.results.Keys
    && (forall b :: b in s.disk.results ==> ResultOk(s.cfg, b, s.disk.results[b]))
    && (forall t :: t in s.threads ==> ThreadOk(s, t))
    && (s.note.Some? ==> s.awaited.Some? && NoteMatches(s, s.awaited.value))
    && (!Subscribed(s.pc) ==> s.threads == map[] && !s.event && s.note.None? && s.awaited.None?)
  }

  // Which orders may lack a result, by where the loop stands: those whose wait was given
  // up, and the one it waits for.
  ghost predicate ResolvedAt(s: State) {
    var open := Unresolved(s.disk) - s.skipped;
    match s.pc
    case Polling => open == {} && s.awaited.None?
    case Publishing(b) => open == {} && s.awaited == Some(b)
    case Published(b) => open == {} && s.awaited == Some(b) && b in s.sent
    case Waiting => s.awaited.Some? && s.awaited.value in s.disk.receipts && open <= {s.awaited.value}
    case Cleared => s.awaited.Some? && s.awaited.value in s.disk.receipts && open <= {s.awaited.value}
    case Settling(_) => open == {} && s.awaited.None?
    case _ => AtMostOne(open)
  }

  // Which recorded results may lack their settlement: those gone astray, and the one that
  // is awaited or being settled.
  ghost predicate SettledAt(s: State) {
    var open := Unsettled(s.disk) - s.astray;
    match s.pc
    case Polling => open == {}
    case Settling(i) => OfIntent(open, i) && exists b :: Carries(s.disk.results, b, i)
    case Publishing(b) => open <= {b}
    case Published(b) => open <= {b}
    case Waiting => s.awaited.Some? && open <= {s.awaited.value}
    case Cleared => s.awaited.Some? && open <= {s.awaited.value}
    case _ => AtMostOne(open)
  }

  ghost predicate Inv(s: State) {
    FilesOk(s) && ResolvedAt(s) && SettledAt(s)
  }

  // ----- What holds as long as no duplicate falls into the gap between clear and reset

  ghost predicate InGap(s: State) {
    s.pc.Cleared? && s.event
  }

  // The event is set for a note, and after the clear the note is still there.
  ghost predicate WakeOk(s: State) {
    (s.event ==> s.note.Some?) && (s.pc.Cleared? ==> s.note.Some? && !s.event)
  }

  ghost predicate NoneSkipped(s: State) {
    && WakeOk(s)
    && match s.pc
       case Polling => Unresolved(s.disk) == {}
       case Publishing(_) => Unresolved(s.disk) == {}
       case Published(_) => Unresolved(s.disk) == {}
       case Waiting => s.awaited.Some? && Unresolved(s.disk) <= {s.awaited.value}
       case Cleared => Unresolved(s.disk) == {}
       case Settling(_) => Unresolved(s.disk) == {}
       case _ => AtMostOne(Unresolved(s.disk))
  }

  // A result that needs settlement was recorded for an order the loop does not wait for.
  ghost predicate StrayRecorded(s: State, s': State) {
    exists b :: b in s'.disk.results && b !in s.disk.results && s'.disk.results[b].needs && s.awaited != Some(b)
  }

  ghost predicate NoneAstray(s: State) {
    && NoneSkipped(s)
    && match s.pc
       case BootSettling(i, _) => OfIntent(Unsettled(s.disk), i)
       case Opening => Unsettled(s.disk) == {}
       case Polling => Unsettled(s.disk) == {}
       case Settling(i) => OfIntent(Unsettled(s.disk), i)
       case Publishing(b) => Unsettled(s.disk) <= {b}
       case Published(b) => Unsettled(s.disk) <= {b}
       case Waiting => s.awaited.Some? && Unsettled(s.disk) <= {s.awaited.value}
       case Cleared => s.awaited.Some? && Unsettled(s.disk) <= {s.awaited.value}
       case Down => AtMostOne(Unsettled(s.disk))
  }

  // A one-shot process about to end: it holds the note of a consumed attempt without a
  // settlement, or can get no other.
  ghost predicate OneShotEnds(s: State) {
    && !s.cfg.continuous && s.awaited.Some? && s.awaited.value in s.disk.results
    && s.disk.results[s.awaited.value].consumed && !s.disk.results[s.awaited.value].needs
    && (s.note.Some? || (!s.pc.Cleared? && !s.event))
  }

  // ----- What only grows

  // What every step leaves in place: configuration, receipts, results, and the record
  // of what was sent; callbacks run only while the subscription is open.
  ghost predicate Grows(s: State, s': State) {
    && s'.cfg == s.cfg
    && s.disk.receipts <= s'.disk.receipts && s.sent <= s'.sent && (s.disk.fault ==> s'.disk.fault)
    && Remembers(s.disk.results, s')
    && (forall b :: b in s'.disk.results && b !in s.disk.results ==> WrittenByCallback(s, s', b))
    && (NoThreads(s) ==> NoThreads(s'))
  }

  // A new result receipt holds what a running callback received.
  ghost predicate WrittenByCallback(s: State, s': State, b: Binding)
    requires b in s'.disk.results
  {
    exists t :: t in s.threads && s.threads[t].binding == b
                && s'.disk.results[b] == ReceiptOf(s.threads[t].result, s'.disk.results[b].needs)
  }

  ghost predicate Remembers(results: map<Binding, Receipt>, s: State) {
    forall b :: b in results ==> b in s.disk.results && s.disk.results[b] == results[b]
  }

  ghost predicate NoThreads(s: State) {
    !Subscribed(s.pc) ==> s.threads == map[]
  }
}
