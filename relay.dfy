/**
 * The per-sender image-then-caption state machine behind `POST /wechat`
 * (webot.js:64-153), its timer callback (webot.js:119-135) and the SIGTERM
 * handler (webot.js:253-261), as a transition system over values. This is
 * the specification that the `Webot` class's methods are proved against.
 *
 * Node runs all of this on one thread; the only interleaving comes from the
 * `await`s. Each handler is therefore split at its `await` into a step that
 * issues the upstream call and a step that resumes with the call's outcome,
 * and an armed timer may fire between any two steps.
 */
module Relay {
  import opened Wrappers
  import opened Inbound
  import Reply

  /** The `FromUserName` used as a Map key; `undefined` is a key like any other. */
  type Sender = Option<string>

  /** The identity of a timer handle or of a suspended handler. */
  type Id = nat

  /** `{path, name, type, size}` from the upload response (webot.js:112-113). */
  datatype ImageInfo = ImageInfo(path: string, name: string, mimeType: string, size: int)

  /** The payload of one `sendToBlinko(content, attachments)` call (webot.js:198-203). */
  datatype Note = Note(content: string, attachments: seq<ImageInfo>)

  /** An armed `setTimeout` callback and the `FromUserName` and `imageInfo` it closed over. */
  datatype Timer = Timer(sender: Sender, captured: ImageInfo)

  /** A handler suspended at an `await`, with what it will need when it resumes. */
  datatype Await =
    | Upload(msg: Message)        // webot.js:111
    | CaptionNote(msg: Message)   // webot.js:78
    | TextNote(msg: Message)      // webot.js:99
    | AutoSave(sender: Sender)    // webot.js:123

  /** How `uploadImage` ended: the response's image fields, or a rejection. */
  datatype UploadOutcome = Uploaded(info: ImageInfo) | UploadThrew

  /** How `sendToBlinko` ended: `response.data.id` truthy, falsy, or a rejection. */
  datatype NoteOutcome = Saved | NotSaved | NoteThrew

  datatype HttpReply = HttpReply(status: int, body: string)

  /**
   * The two Maps of webot.js:48-49, the runtime's armed timers and suspended
   * handlers, the notes of every `sendToBlinko` call issued so far, the next fresh
   * identity, and whether `process.exit` has run.
   */
  datatype State = State(
    pendingImages: map<Sender, ImageInfo>,
    imageTimeouts: map<Sender, Id>,
    timers: map<Id, Timer>,
    awaiting: map<Id, Await>,
    notes: seq<Note>,
    nextId: Id,
    exited: bool)

  const Init := State(map[], map[], map[], map[], [], 0, false)

  // The texts the handlers send (webot.js:81, 85, 101, 122, 139, 143, 149).
  const CaptionSaved := "图文消息已保存"
  const TextSaved := "文本消息已保存"
  const SaveFailed := "保存失败"
  const ImageReceived := "图片已接收，请输入文字描述（30秒后自动保存）"
  const Unsupported := "Unsupported message type"
  const InternalError := "系统内部错误"
  const AutoCaption := "来自微信公众号图片"

  /** The state after a step, and the HTTP reply the step sends, if any. */
  datatype Transition = Transition(next: State, reply: Option<HttpReply>)

  /** `generateXmlResponse(ToUserName, FromUserName, text)` sent with `status`. */
  function Answer(msg: Message, status: int, text: string, nowMs: int): HttpReply {
    HttpReply(status, Reply.XmlResponse(Interp(msg.toUser), Interp(msg.fromUser), text, nowMs))
  }

  /** The catch block (webot.js:147-151). */
  function ServerError(msg: Message, nowMs: int): HttpReply {
    HttpReply(500, Reply.ErrorResponse(Some(msg), InternalError, nowMs))
  }

  /** Every part of the state except the notes and the identities in use. */
  predicate SameMaps(s: State, t: State) {
    && s.pendingImages == t.pendingImages
    && s.imageTimeouts == t.imageTimeouts
    && s.timers == t.timers
  }

  /**
   * A POST request reaches the handler (webot.js:69-146, up to the first
   * `await`). A text sends its note at once, with the pending image if the
   * sender has one; an image starts its upload; any other type is answered
   * with 400.
   */
  function Receive(s: State, msg: Message, nowMs: int): (t: Transition)
    requires !s.exited
    ensures msg.msgType == Some("text") ==>
      && SameMaps(t.next, s) && t.reply == None
      && t.next.notes == s.notes + [Note(Interp(msg.content),
           if msg.fromUser in s.pendingImages then [s.pendingImages[msg.fromUser]] else [])]
      && t.next.awaiting == s.awaiting[s.nextId :=
           if msg.fromUser in s.pendingImages then CaptionNote(msg) else TextNote(msg)]
    ensures msg.msgType == Some("image") ==>
      && SameMaps(t.next, s) && t.reply == None && t.next.notes == s.notes
      && t.next.awaiting == s.awaiting[s.nextId := Upload(msg)]
    ensures msg.msgType != Some("text") && msg.msgType != Some("image") ==>
      && t.next == s
      && t.reply == Some(Answer(msg, 400, Unsupported, nowMs))
  {
    var u := msg.fromUser;
    var id := s.nextId;
    var s' := s.(nextId := id + 1);
    if msg.msgType == Some("text") then
      if u in s.pendingImages then
        Transition(s'.(notes := s.notes + [Note(Interp(msg.content), [s.pendingImages[u]])],
                       awaiting := s.awaiting[id := CaptionNote(msg)]), None)
      else
        Transition(s'.(notes := s.notes + [Note(Interp(msg.content), [])],
                       awaiting := s.awaiting[id := TextNote(msg)]), None)
    else if msg.msgType == Some("image") then
      Transition(s'.(awaiting := s.awaiting[id := Upload(msg)]), None)
    else
      Transition(s, Some(Answer(msg, 400, Unsupported, nowMs)))
  }

  /**
   * A POST request whose body `parseWechatMessage` turns into `undefined`
   * (webot.js:170-181: `res.xml` when the root element is not `xml`). The
   * destructuring at webot.js:70 throws, and the catch block
   * (webot.js:147-151) answers 500 with `generateErrorResponse(undefined, …)`,
   * which is the FAIL form. Nothing changes.
   */
  function RejectUnparsed(s: State, nowMs: int): (t: Transition)
    requires !s.exited
    ensures t.next == s
  {
    Transition(s, Some(HttpReply(500, Reply.ErrorResponse(None, InternalError, nowMs))))
  }

  /**
   * `uploadImage` settles (webot.js:111-141). On success the sender's pending
   * image is replaced and a fresh timer capturing it is armed and stored;
   * the timer previously stored for the sender is overwritten, not cleared.
   * A rejection lands in the catch block and changes nothing.
   */
  function UploadDone(s: State, id: Id, outcome: UploadOutcome, nowMs: int): (t: Transition)
    requires !s.exited && id in s.awaiting && s.awaiting[id].Upload?
    ensures t.next.awaiting == s.awaiting - {id} && t.next.notes == s.notes
    ensures var msg, u := s.awaiting[id].msg, s.awaiting[id].msg.fromUser;
      match outcome
      case Uploaded(info) =>
        && u in t.next.pendingImages && t.next.pendingImages[u] == info
        && t.next.pendingImages - {u} == s.pendingImages - {u}
        && u in t.next.imageTimeouts && t.next.imageTimeouts - {u} == s.imageTimeouts - {u}
        && (var handle := t.next.imageTimeouts[u];
            && handle in t.next.timers && t.next.timers[handle] == Timer(u, info)
            && s.timers.Keys <= t.next.timers.Keys
            && t.next.timers - {handle} == s.timers - {handle})
        && t.reply == Some(Answer(msg, 200, ImageReceived, nowMs))
      case UploadThrew =>
        && SameMaps(t.next, s)
        && t.reply == Some(ServerError(msg, nowMs))
  {
    var msg := s.awaiting[id].msg;
    var u := msg.fromUser;
    var s' := s.(awaiting := s.awaiting - {id});
    match outcome
    case Uploaded(info) =>
      var timeoutId := s.nextId;
      Transition(s'.(pendingImages := s.pendingImages[u := info],
                     timers := s.timers[timeoutId := Timer(u, info)],
                     imageTimeouts := s.imageTimeouts[u := timeoutId],
                     nextId := timeoutId + 1),
                 Some(Answer(msg, 200, ImageReceived, nowMs)))
    case UploadThrew =>
      Transition(s', Some(ServerError(msg, nowMs)))
  }

  /** The handle stored for `u` in `imageTimeouts`, as a set of at most one. */
  function StoredHandle(s: State, u: Sender): set<Id> {
    if u in s.imageTimeouts then {s.imageTimeouts[u]} else {}
  }

  /**
   * `sendToBlinko` settles for a suspended text handler or timer callback.
   * After a caption note (webot.js:80-96) the reply follows `data.id`, then
   * the timer stored for the sender now is cleared and both Map entries are
   * deleted; after a text-only note (webot.js:100-108) only the reply
   * follows. In both a rejection lands in the catch block (webot.js:147-151)
   * and skips the cleanup. After an auto-save (webot.js:125-134) both
   * entries are deleted, whatever they now hold; its rejection escapes the
   * callback and skips them.
   */
  function NoteDone(s: State, id: Id, outcome: NoteOutcome, nowMs: int): (t: Transition)
    requires !s.exited && id in s.awaiting && !s.awaiting[id].Upload?
    ensures t.next.awaiting == s.awaiting - {id} && t.next.notes == s.notes
    ensures s.awaiting[id].CaptionNote? ==>
      var msg, u := s.awaiting[id].msg, s.awaiting[id].msg.fromUser;
      if outcome == NoteThrew then
        SameMaps(t.next, s) && t.reply == Some(ServerError(msg, nowMs))
      else
        && u !in t.next.pendingImages && u !in t.next.imageTimeouts
        && t.next.pendingImages == s.pendingImages - {u}
        && t.next.imageTimeouts == s.imageTimeouts - {u}
        && t.next.timers == s.timers - StoredHandle(s, u)
        && t.reply == Some(Answer(msg, 200, if outcome == Saved then CaptionSaved else SaveFailed, nowMs))
    ensures s.awaiting[id].TextNote? ==>
      var msg := s.awaiting[id].msg;
      && SameMaps(t.next, s)
      && t.reply == Some(
           if outcome == NoteThrew then ServerError(msg, nowMs)
           else Answer(msg, 200, if outcome == Saved then TextSaved else SaveFailed, nowMs))
    ensures s.awaiting[id].AutoSave? ==>
      var u := s.awaiting[id].sender;
      && t.reply == None && t.next.timers == s.timers
      && (if outcome == NoteThrew then SameMaps(t.next, s)
          else
            && u !in t.next.pendingImages && u !in t.next.imageTimeouts
            && t.next.pendingImages == s.pendingImages - {u}
            && t.next.imageTimeouts == s.imageTimeouts - {u})
  {
    var s' := s.(awaiting := s.awaiting - {id});
    match s.awaiting[id]
    case CaptionNote(msg) =>
      var u := msg.fromUser;
      if outcome == NoteThrew then
        Transition(s', Some(ServerError(msg, nowMs)))
      else
        var text := if outcome == Saved then CaptionSaved else SaveFailed;
        var timers := if u in s.imageTimeouts then s.timers - {s.imageTimeouts[u]} else s.timers;
        Transition(s'.(timers := timers,
                       imageTimeouts := s.imageTimeouts - {u},
                       pendingImages := s.pendingImages - {u}),
                   Some(Answer(msg, 200, text, nowMs)))
    case TextNote(msg) =>
      if outcome == NoteThrew then
        Transition(s', Some(ServerError(msg, nowMs)))
      else
        var text := if outcome == Saved then TextSaved else SaveFailed;
        Transition(s', Some(Answer(msg, 200, text, nowMs)))
    case AutoSave(u) =>
      if outcome == NoteThrew then
        Transition(s', None)
      else
        Transition(s'.(pendingImages := s.pendingImages - {u},
                       imageTimeouts := s.imageTimeouts - {u}), None)
  }

  /**
   * An armed timer fires (webot.js:119-135). It asks only whether its
   * sender has some pending image, not whether that image is the one it
   * captured; if so it sends its captured image with the default caption and
   * suspends, otherwise it deletes the sender's stored handle at once.
   */
  function Fire(s: State, handle: Id): (t: Transition)
    requires !s.exited && handle in s.timers
    ensures t.reply == None
    ensures t.next.timers == s.timers - {handle}
    ensures t.next.pendingImages == s.pendingImages
    ensures var timer := s.timers[handle];
      if timer.sender in s.pendingImages then
        && t.next.notes == s.notes + [Note(AutoCaption, [timer.captured])]
        && t.next.imageTimeouts == s.imageTimeouts
        && t.next.awaiting == s.awaiting[s.nextId := AutoSave(timer.sender)]
      else
        && t.next.notes == s.notes
        && t.next.imageTimeouts == s.imageTimeouts - {timer.sender}
        && t.next.awaiting == s.awaiting
  {
    var timer := s.timers[handle];
    var s' := s.(timers := s.timers - {handle});
    if timer.sender in s.pendingImages then
      Transition(s'.(notes := s.notes + [Note(AutoCaption, [timer.captured])],
                     awaiting := s.awaiting[s.nextId := AutoSave(timer.sender)],
                     nextId := s.nextId + 1), None)
    else
      Transition(s'.(imageTimeouts := s.imageTimeouts - {timer.sender}), None)
  }

  /**
   * SIGTERM (webot.js:253-261): every handle stored in `imageTimeouts` is
   * cleared, no pending image is sent, and the process exits.
   */
  function Sigterm(s: State): (t: Transition)
    requires !s.exited
    ensures t.next.exited && t.reply == None
    ensures t.next.notes == s.notes
    ensures t.next.pendingImages == s.pendingImages && t.next.imageTimeouts == s.imageTimeouts
    ensures forall u :: u in s.imageTimeouts ==> s.imageTimeouts[u] !in t.next.timers
    ensures forall h :: h in t.next.timers ==> h in s.timers && t.next.timers[h] == s.timers[h]
    ensures forall h :: h in s.timers && h !in s.imageTimeouts.Values ==> h in t.next.timers
  {
    Transition(s.(timers := s.timers - s.imageTimeouts.Values, exited := true), None)
  }

  /** Everything that can happen next in the process. */
  datatype Event =
    | Request(parsed: Option<Message>, nowMs: int)   // None: the body parsed to `undefined`
    | UploadSettles(id: Id, upload: UploadOutcome, nowMs: int)
    | NoteSettles(id: Id, note: NoteOutcome, nowMs: int)
    | TimerFires(handle: Id)
    | Terminate

  /** Whether the event can happen in `s`: nothing happens after the process exits. */
  predicate Enabled(s: State, e: Event) {
    !s.exited &&
    match e
    case Request(_, _) => true
    case UploadSettles(id, _, _) => id in s.awaiting && s.awaiting[id].Upload?
    case NoteSettles(id, _, _) => id in s.awaiting && !s.awaiting[id].Upload?
    case TimerFires(handle) => handle in s.timers
    case Terminate => true
  }

  function Step(s: State, e: Event): Transition
    requires Enabled(s, e)
  {
    match e
    case Request(parsed, nowMs) =>
      if parsed.Some? then Receive(s, parsed.value, nowMs) else RejectUnparsed(s, nowMs)
    case UploadSettles(id, outcome, nowMs) => UploadDone(s, id, outcome, nowMs)
    case NoteSettles(id, outcome, nowMs) => NoteDone(s, id, outcome, nowMs)
    case TimerFires(handle) => Fire(s, handle)
    case Terminate => Sigterm(s)
  }

  /** The state after the events in order, or None if one of them cannot happen. */
  function Run(s: State, events: seq<Event>): Option<State>
    decreases |events|
  {
    if events == [] then Some(s)
    else if Enabled(s, events[0]) then Run(Step(s, events[0]).next, events[1..])
    else None
  }
}
