/**
 * What every reachable state of the relay satisfies, and what one event
 * leaves alone.
 */
module RelayLaws {
  import opened Wrappers
  import opened Relay
  import Reply

  /**
   * The invariant of reachable states: a sender has a pending image exactly
   * when it has a stored timer handle; identities in use are below `nextId`;
   * a stored handle that is still armed belongs to a timer of that sender
   * which captured exactly the pending image; no note carries more than one
   * image.
   */
  ghost predicate Inv(s: State) {
    && s.pendingImages.Keys == s.imageTimeouts.Keys
    && (forall h :: h in s.timers ==> h < s.nextId)
    && (forall id :: id in s.awaiting ==> id < s.nextId)
    && (forall u :: u in s.imageTimeouts ==> s.imageTimeouts[u] < s.nextId)
    && (forall u :: u in s.imageTimeouts && s.imageTimeouts[u] in s.timers ==>
          s.timers[s.imageTimeouts[u]] == Timer(u, s.pendingImages[u]))
    && (forall i :: 0 <= i < |s.notes| ==> |s.notes[i].attachments| <= 1)
  }

  lemma InitInv()
    ensures Inv(Init)
  {
  }

  lemma ReceiveKeepsInv(s: State, msg: Inbound.Message, nowMs: int)
    requires Inv(s) && !s.exited
    ensures Inv(Receive(s, msg, nowMs).next)
  {
    var t := Receive(s, msg, nowMs).next;
    assert forall i :: 0 <= i < |t.notes| ==> i < |s.notes| || t.notes[i] == t.notes[|s.notes|];
  }

  lemma UploadDoneKeepsInv(s: State, id: Id, outcome: UploadOutcome, nowMs: int)
    requires Inv(s) && !s.exited && id in s.awaiting && s.awaiting[id].Upload?
    ensures Inv(UploadDone(s, id, outcome, nowMs).next)
  {
  }

  lemma NoteDoneKeepsInv(s: State, id: Id, outcome: NoteOutcome, nowMs: int)
    requires Inv(s) && !s.exited && id in s.awaiting && !s.awaiting[id].Upload?
    ensures Inv(NoteDone(s, id, outcome, nowMs).next)
  {
  }

  lemma FireKeepsInv(s: State, handle: Id)
    requires Inv(s) && !s.exited && handle in s.timers
    ensures Inv(Fire(s, handle).next)
  {
    var t := Fire(s, handle).next;
    assert forall i :: 0 <= i < |t.notes| ==> i < |s.notes| || t.notes[i] == t.notes[|s.notes|];
  }

  lemma SigtermKeepsInv(s: State)
    requires Inv(s) && !s.exited
    ensures Inv(Sigterm(s).next)
  {
  }

  /** Every event keeps the invariant. */
  lemma StepKeepsInv(s: State, e: Event)
    requires Inv(s) && Enabled(s, e)
    ensures Inv(Step(s, e).next)
  {
    match e
    case Request(parsed, nowMs) =>
      if parsed.Some? {
        ReceiveKeepsInv(s, parsed.value, nowMs);
      }
    case UploadSettles(id, outcome, nowMs) => UploadDoneKeepsInv(s, id, outcome, nowMs);
    case NoteSettles(id, outcome, nowMs) => NoteDoneKeepsInv(s, id, outcome, nowMs);
    case TimerFires(handle) => FireKeepsInv(s, handle);
    case Terminate => SigtermKeepsInv(s);
  }

  /**
   * A request whose body has no `xml` root element changes nothing and is
   * answered 500 with the FAIL form carrying `系统内部错误`.
   */
  lemma UnparsedRequestFails(s: State, nowMs: int)
    requires !s.exited
    ensures Step(s, Request(None, nowMs)).next == s
    ensures var reply := Step(s, Request(None, nowMs)).reply;
      reply.Some? && reply.value.status == 500
      && Reply.Parse(reply.value.body) == Some(Reply.Fail(InternalError))
  {
    Reply.ErrorResponseReads(None, InternalError, nowMs);
  }

  /** Every state reached from one that satisfies the invariant satisfies it. */
  lemma {:induction false} RunKeepsInv(s: State, events: seq<Event>)
    requires Inv(s) && Run(s, events).Some?
    ensures Inv(Run(s, events).value)
    decreases |events|
  {
    if events != [] {
      StepKeepsInv(s, events[0]);
      RunKeepsInv(Step(s, events[0]).next, events[1..]);
    }
  }

  /** Every reachable state satisfies the invariant. */
  lemma ReachableInv(events: seq<Event>)
    requires Run(Init, events).Some?
    ensures Inv(Run(Init, events).value)
  {
    InitInv();
    RunKeepsInv(Init, events);
  }

  /** Notes are only ever appended, at most one per event. */
  lemma {:induction false} RunAppendsNotes(s: State, events: seq<Event>)
    requires Run(s, events).Some?
    ensures s.notes <= Run(s, events).value.notes
    ensures |Run(s, events).value.notes| <= |s.notes| + |events|
    decreases |events|
  {
    if events != [] {
      var t := Step(s, events[0]).next;
      assert s.notes <= t.notes && |t.notes| <= |s.notes| + 1;
      RunAppendsNotes(t, events[1..]);
    }
  }

  /** The entry of `m` for `u`, if any. */
  function Get<K, V>(m: map<K, V>, u: K): Option<V> {
    if u in m then Some(m[u]) else None
  }

  /**
   * The sender whose entries the event may touch; None for SIGTERM and for
   * a request with no parsed message, which touch no entry.
   */
  function Subject(s: State, e: Event): Option<Sender>
    requires Enabled(s, e)
  {
    match e
    case Request(parsed, _) => if parsed.Some? then Some(parsed.value.fromUser) else None
    case UploadSettles(id, _, _) => Some(s.awaiting[id].msg.fromUser)
    case NoteSettles(id, _, _) =>
      (match s.awaiting[id]
       case AutoSave(u) => Some(u)
       case CaptionNote(msg) => Some(msg.fromUser)
       case TextNote(msg) => Some(msg.fromUser))
    case TimerFires(handle) => Some(s.timers[handle].sender)
    case Terminate => None
  }

  /** `t` holds what `s` holds for `v` in both Maps. */
  predicate SameEntries(s: State, t: State, v: Sender) {
    Get(t.pendingImages, v) == Get(s.pendingImages, v) && Get(t.imageTimeouts, v) == Get(s.imageTimeouts, v)
  }

  /** Every armed timer of `v` other than `fired` is still armed in `t`. */
  predicate SameTimers(s: State, t: State, v: Sender, fired: set<Id>) {
    forall h :: h in s.timers && s.timers[h].sender == v && h !in fired ==> Get(t.timers, h) == Some(s.timers[h])
  }

  lemma UploadDoneUntouched(s: State, id: Id, outcome: UploadOutcome, nowMs: int, v: Sender)
    requires Inv(s) && !s.exited && id in s.awaiting && s.awaiting[id].Upload?
    requires s.awaiting[id].msg.fromUser != v
    ensures SameEntries(s, UploadDone(s, id, outcome, nowMs).next, v)
    ensures SameTimers(s, UploadDone(s, id, outcome, nowMs).next, v, {})
  {
  }

  lemma NoteDoneUntouched(s: State, id: Id, outcome: NoteOutcome, nowMs: int, v: Sender)
    requires Inv(s) && !s.exited && id in s.awaiting && !s.awaiting[id].Upload?
    requires s.awaiting[id].AutoSave? ==> s.awaiting[id].sender != v
    requires !s.awaiting[id].AutoSave? ==> s.awaiting[id].msg.fromUser != v
    ensures SameEntries(s, NoteDone(s, id, outcome, nowMs).next, v)
    ensures SameTimers(s, NoteDone(s, id, outcome, nowMs).next, v, {})
  {
  }

  lemma FireUntouched(s: State, handle: Id, v: Sender)
    requires Inv(s) && !s.exited && handle in s.timers && s.timers[handle].sender != v
    ensures SameEntries(s, Fire(s, handle).next, v)
    ensures SameTimers(s, Fire(s, handle).next, v, {handle})
  {
  }

  /**
   * An event about one sender leaves every other sender's pending image,
   * stored handle and armed timers as they were (SIGTERM clears timers but
   * changes no entry).
   */
  lemma OtherSendersUntouched(s: State, e: Event, v: Sender)
    requires Inv(s) && Enabled(s, e) && Subject(s, e) != Some(v)
    ensures Get(Step(s, e).next.pendingImages, v) == Get(s.pendingImages, v)
    ensures Get(Step(s, e).next.imageTimeouts, v) == Get(s.imageTimeouts, v)
    ensures !e.Terminate? ==>
      forall h :: h in s.timers && s.timers[h].sender == v && e != TimerFires(h) ==>
        Get(Step(s, e).next.timers, h) == Some(s.timers[h])
  {
    match e
    case Request(_, _) =>
    case UploadSettles(id, outcome, nowMs) => UploadDoneUntouched(s, id, outcome, nowMs, v);
    case NoteSettles(id, outcome, nowMs) => NoteDoneUntouched(s, id, outcome, nowMs, v);
    case TimerFires(handle) => FireUntouched(s, handle, v);
    case Terminate =>
  }

  /**
   * When a second image for `u` is uploaded, the timer stored for the first
   * stays armed, still capturing the first image, but no sender's entry in
   * `imageTimeouts` refers to it any more. SIGTERM clears only the handles
   * stored there, and `Relay.Sigterm` keeps every other armed timer.
   */
  lemma ReplacedTimerLeaks(s: State, id: Id, info: ImageInfo, nowMs: int)
    requires Inv(s) && !s.exited && id in s.awaiting && s.awaiting[id].Upload?
    requires s.awaiting[id].msg.fromUser in s.imageTimeouts
    requires s.imageTimeouts[s.awaiting[id].msg.fromUser] in s.timers
    ensures var u := s.awaiting[id].msg.fromUser;
      var old_ := s.imageTimeouts[u];
      var t := UploadDone(s, id, Uploaded(info), nowMs).next;
      && old_ in t.timers && t.timers[old_] == Timer(u, s.pendingImages[u])
      && old_ !in t.imageTimeouts.Values
  {
    var u := s.awaiting[id].msg.fromUser;
    var h := s.imageTimeouts[u];
    var t := UploadDone(s, id, Uploaded(info), nowMs).next;
    assert t.imageTimeouts[u] == s.nextId != h;
  }
}
