/**
 * The module-level state of webot.js and the handlers that change it in
 * place: the `pendingImages` and `imageTimeouts` Maps (webot.js:48-49), the
 * POST handler split at its `await`s, the timer callback and the SIGTERM
 * handler. The runtime's armed timers, the suspended handlers and the notes
 * of every `sendToBlinko` call issued are fields too, so that each method can be
 * proved to perform exactly the corresponding `Relay` transition.
 */
module Webot {
  import opened Wrappers
  import opened Inbound
  import opened Relay
  import Reply

  class Server {
    var pendingImages: map<Sender, ImageInfo>
    var imageTimeouts: map<Sender, Id>
    var timers: map<Id, Timer>
    var awaiting: map<Id, Await>
    var notes: seq<Note>
    var nextId: Id
    var exited: bool

    /** The whole process state as a value. */
    ghost function Snapshot(): State
      reads this
    {
      State(pendingImages, imageTimeouts, timers, awaiting, notes, nextId, exited)
    }

    /** A freshly started process: both Maps empty, nothing armed, suspended or sent. */
    constructor ()
      ensures Snapshot() == Init
    {
      pendingImages, imageTimeouts := map[], map[];
      timers, awaiting := map[], map[];
      notes, nextId, exited := [], 0, false;
    }

    /**
     * `sendToBlinko(content, attachments)` issues its request. Whether the
     * note service receives it is decided by the outcome the handler resumes with.
     */
    method SendToBlinko(content: string, attachments: seq<ImageInfo>)
      modifies this`notes
      ensures notes == old(notes) + [Note(content, attachments)]
    {
      notes := notes + [Note(content, attachments)];
    }

    /** The handler or callback suspends at an `await`, under a fresh identity. */
    method Suspend(at: Await)
      modifies this`awaiting, this`nextId
      ensures awaiting == old(awaiting)[old(nextId) := at] && nextId == old(nextId) + 1
    {
      awaiting := awaiting[nextId := at];
      nextId := nextId + 1;
    }

    /** The suspended handler `id` resumes. */
    method Resume(id: Id)
      modifies this`awaiting
      ensures awaiting == old(awaiting) - {id}
    {
      awaiting := awaiting - {id};
    }

    /** `clearTimeout(handle)`: a no-op when the timer has fired or was cleared already. */
    method ClearTimeout(handle: Id)
      modifies this`timers
      ensures timers == old(timers) - {handle}
    {
      timers := timers - {handle};
    }

    /**
     * A POST request runs up to its first `await` (webot.js:64-151), given
     * what `parseWechatMessage` returned; None is `undefined`.
     */
    method Receive(parsed: Option<Message>, nowMs: int) returns (reply: Option<HttpReply>)
      requires !exited
      modifies this
      ensures Snapshot() == Step(old(Snapshot()), Request(parsed, nowMs)).next
      ensures reply == Step(old(Snapshot()), Request(parsed, nowMs)).reply
    {
      if parsed == None {
        reply := Some(HttpReply(500, Reply.ErrorResponse(None, InternalError, nowMs)));
        return;
      }
      var msg := parsed.value;
      var fromUser := msg.fromUser;
      reply := None;
      if msg.msgType == Some("text") {
        if fromUser in pendingImages {
          var pendingImage := pendingImages[fromUser];
          SendToBlinko(Interp(msg.content), [pendingImage]);
          Suspend(CaptionNote(msg));
        } else {
          SendToBlinko(Interp(msg.content), []);
          Suspend(TextNote(msg));
        }
      } else if msg.msgType == Some("image") {
        Suspend(Upload(msg));
      } else {
        reply := Some(Answer(msg, 400, Unsupported, nowMs));
      }
    }

    /** The image handler resumes after `uploadImage` (webot.js:111-141, 147-151). */
    method ResumeUpload(id: Id, outcome: UploadOutcome, nowMs: int) returns (reply: Option<HttpReply>)
      requires !exited && id in awaiting && awaiting[id].Upload?
      modifies this
      ensures Snapshot() == UploadDone(old(Snapshot()), id, outcome, nowMs).next
      ensures reply == UploadDone(old(Snapshot()), id, outcome, nowMs).reply
    {
      var msg := awaiting[id].msg;
      var fromUser := msg.fromUser;
      Resume(id);
      match outcome
      case Uploaded(imageInfo) =>
        pendingImages := pendingImages[fromUser := imageInfo];
        var timeoutId := nextId;
        timers := timers[timeoutId := Timer(fromUser, imageInfo)];
        nextId := nextId + 1;
        imageTimeouts := imageTimeouts[fromUser := timeoutId];
        reply := Some(Answer(msg, 200, ImageReceived, nowMs));
      case UploadThrew =>
        reply := Some(ServerError(msg, nowMs));
    }

    /**
     * A text handler resumes after `sendToBlinko` (webot.js:80-96, 100-108,
     * 147-151), or a timer callback does (webot.js:125-134).
     */
    method ResumeNote(id: Id, outcome: NoteOutcome, nowMs: int) returns (reply: Option<HttpReply>)
      requires !exited && id in awaiting && !awaiting[id].Upload?
      modifies this
      ensures Snapshot() == NoteDone(old(Snapshot()), id, outcome, nowMs).next
      ensures reply == NoteDone(old(Snapshot()), id, outcome, nowMs).reply
    {
      var at := awaiting[id];
      Resume(id);
      reply := None;
      match at
      case CaptionNote(msg) =>
        if outcome == NoteThrew {
          reply := Some(ServerError(msg, nowMs));
        } else {
          var fromUser := msg.fromUser;
          reply := Some(Answer(msg, 200, if outcome == Saved then CaptionSaved else SaveFailed, nowMs));
          if fromUser in imageTimeouts {
            var timeoutId := imageTimeouts[fromUser];
            ClearTimeout(timeoutId);
            imageTimeouts := imageTimeouts - {fromUser};
          }
          pendingImages := pendingImages - {fromUser};
        }
      case TextNote(msg) =>
        if outcome == NoteThrew {
          reply := Some(ServerError(msg, nowMs));
        } else {
          reply := Some(Answer(msg, 200, if outcome == Saved then TextSaved else SaveFailed, nowMs));
        }
      case AutoSave(fromUser) =>
        if outcome != NoteThrew {
          pendingImages := pendingImages - {fromUser};
          imageTimeouts := imageTimeouts - {fromUser};
        }
    }

    /** The armed timer `handle` fires and its callback runs up to its `await` (webot.js:119-135). */
    method FireTimer(handle: Id)
      requires !exited && handle in timers
      modifies this
      ensures Snapshot() == Fire(old(Snapshot()), handle).next
    {
      var timer := timers[handle];
      timers := timers - {handle};
      if timer.sender in pendingImages {
        SendToBlinko(AutoCaption, [timer.captured]);
        Suspend(AutoSave(timer.sender));
      } else {
        imageTimeouts := imageTimeouts - {timer.sender};
      }
    }

    /**
     * SIGTERM (webot.js:253-261): a loop clears the timer of every entry in
     * `imageTimeouts`, then the process exits.
     */
    method Terminate()
      requires !exited
      modifies this
      ensures Snapshot() == Sigterm(old(Snapshot())).next
    {
      var remaining := imageTimeouts.Keys;
      while remaining != {}
        invariant remaining <= imageTimeouts.Keys
        invariant timers == old(timers) - Handles(imageTimeouts, imageTimeouts.Keys - remaining)
        invariant pendingImages == old(pendingImages) && imageTimeouts == old(imageTimeouts)
        invariant awaiting == old(awaiting) && notes == old(notes) && nextId == old(nextId)
        invariant !exited
        decreases remaining
      {
        var userId :| userId in remaining;
        ClearTimeout(imageTimeouts[userId]);
        HandlesAddOne(imageTimeouts, imageTimeouts.Keys - remaining, userId);
        assert imageTimeouts.Keys - (remaining - {userId}) == (imageTimeouts.Keys - remaining) + {userId};
        remaining := remaining - {userId};
      }
      HandlesAll(imageTimeouts);
      exited := true;
    }
  }

  /** The handles stored under the given senders. */
  function Handles(m: map<Sender, Id>, senders: set<Sender>): set<Id> {
    set u | u in senders && u in m :: m[u]
  }

  lemma HandlesAddOne(m: map<Sender, Id>, senders: set<Sender>, u: Sender)
    requires u in m
    ensures Handles(m, senders + {u}) == Handles(m, senders) + {m[u]}
  {
  }

  lemma HandlesAll(m: map<Sender, Id>)
    ensures Handles(m, m.Keys) == m.Values
  {
  }
}
