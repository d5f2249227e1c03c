/**
 * Concrete runs of the relay from a fresh process, one sender `u` writing to
 * account `to`. The first four show the behaviour the relay is for; the last
 * three show how the code behaves when a timer callback, a second image or
 * a caption interleaves with a suspended handler. Each proof lists the state
 * after every event.
 */
module RelayTraces {
  import opened Wrappers
  import opened Inbound
  import opened Relay

  function ImageMsg(u: Sender, to: Option<string>, picUrl: Option<string>): Message {
    Message(Some("image"), None, picUrl, u, to)
  }

  function TextMsg(u: Sender, to: Option<string>, content: string): Message {
    Message(Some("text"), Some(content), None, u, to)
  }

  /** The process state with only the given notes sent and nothing pending, armed or suspended. */
  function Quiet(notes: seq<Note>, nextId: Id): State {
    State(map[], map[], map[], map[], notes, nextId, false)
  }

  /** The state once the first image of `u` is uploaded: `a` pending, its timer armed as handle 1. */
  function ImagePending(u: Sender, a: ImageInfo): State {
    State(map[u := a], map[u := 1], map[1 := Timer(u, a)], map[], [], 2, false)
  }

  lemma RunCons(s: State, e: Event, rest: seq<Event>)
    requires Enabled(s, e)
    ensures Run(s, [e] + rest) == Run(Step(s, e).next, rest)
  {
    assert ([e] + rest)[1..] == rest;
  }

  /** Running two event sequences one after the other is running their concatenation. */
  lemma {:induction false} RunAppend(s: State, xs: seq<Event>, ys: seq<Event>)
    requires Run(s, xs).Some?
    ensures Run(s, xs + ys) == Run(Run(s, xs).value, ys)
    decreases |xs|
  {
    if xs != [] {
      assert (xs + ys)[0] == xs[0] && (xs + ys)[1..] == xs[1..] + ys;
      RunAppend(Step(s, xs[0]).next, xs[1..], ys);
    } else {
      assert xs + ys == ys;
    }
  }

  /** A caption for the pending image sends one note with both and suspends. */
  lemma CaptionWhileImagePending(u: Sender, to: Option<string>, a: ImageInfo, caption: string, now: int)
    ensures Enabled(ImagePending(u, a), Request(Some(TextMsg(u, to, caption)), now))
    ensures Step(ImagePending(u, a), Request(Some(TextMsg(u, to, caption)), now)).next == State(map[u := a], map[u := 1], map[1 := Timer(u, a)], map[2 := CaptionNote(TextMsg(u, to, caption))], [Note(caption, [a])], 3, false)
  {
  }

  /** Event 2 after the upload in `CaptionedImageSavedOnce`, from the state listed before it. */
  lemma CaptionedImageSavedOnceStep2(u: Sender, to: Option<string>, a: ImageInfo, caption: string, now: int)
    ensures Enabled(State(map[u := a], map[u := 1], map[1 := Timer(u, a)], map[2 := CaptionNote(TextMsg(u, to, caption))], [Note(caption, [a])], 3, false), NoteSettles(2, Saved, now))
    ensures Step(State(map[u := a], map[u := 1], map[1 := Timer(u, a)], map[2 := CaptionNote(TextMsg(u, to, caption))], [Note(caption, [a])], 3, false), NoteSettles(2, Saved, now)).next == Quiet([Note(caption, [a])], 3)
  {
  }

  /** The image's timer fires while it is pending: it sends the image with the default caption and suspends. */
  lemma TimerWhileImagePending(u: Sender, a: ImageInfo)
    ensures Enabled(ImagePending(u, a), TimerFires(1))
    ensures Step(ImagePending(u, a), TimerFires(1)).next == State(map[u := a], map[u := 1], map[], map[2 := AutoSave(u)], [Note(AutoCaption, [a])], 3, false)
  {
  }

  /** Event 2 after the upload in `UncaptionedImageAutoSaved`, from the state listed before it. */
  lemma UncaptionedImageAutoSavedStep2(u: Sender, a: ImageInfo, now: int)
    ensures Enabled(State(map[u := a], map[u := 1], map[], map[2 := AutoSave(u)], [Note(AutoCaption, [a])], 3, false), NoteSettles(2, Saved, now))
    ensures Step(State(map[u := a], map[u := 1], map[], map[2 := AutoSave(u)], [Note(AutoCaption, [a])], 3, false), NoteSettles(2, Saved, now)).next == Quiet([Note(AutoCaption, [a])], 3)
  {
  }

  /** Event 1 after the upload in `ShutdownDropsPendingImage`, from the state listed before it. */
  lemma ShutdownDropsPendingImageStep1(u: Sender, a: ImageInfo)
    ensures Enabled(ImagePending(u, a), Terminate)
    ensures Step(ImagePending(u, a), Terminate).next == State(map[u := a], map[u := 1], map[], map[], [], 2, true)
  {
    assert u in map[u := 1] && map[u := 1][u] == 1;
    assert map[u := 1].Values == {1};
    assert map[1 := Timer(u, a)] - {1} == map[];
  }

  /** Event 1 after the upload in `SupersededTimerSavesOldImage`, from the state listed before it. */
  lemma SupersededTimerSavesOldImageStep1(u: Sender, to: Option<string>, pic: Option<string>, a: ImageInfo, now: int)
    ensures Enabled(ImagePending(u, a), Request(Some(ImageMsg(u, to, pic)), now))
    ensures Step(ImagePending(u, a), Request(Some(ImageMsg(u, to, pic)), now)).next == State(map[u := a], map[u := 1], map[1 := Timer(u, a)], map[2 := Upload(ImageMsg(u, to, pic))], [], 3, false)
  {
  }

  /** Event 2 after the upload in `SupersededTimerSavesOldImage`, from the state listed before it. */
  lemma SupersededTimerSavesOldImageStep2(u: Sender, to: Option<string>, pic: Option<string>, a: ImageInfo, b: ImageInfo, now: int)
    ensures Enabled(State(map[u := a], map[u := 1], map[1 := Timer(u, a)], map[2 := Upload(ImageMsg(u, to, pic))], [], 3, false), UploadSettles(2, Uploaded(b), now))
    ensures Step(State(map[u := a], map[u := 1], map[1 := Timer(u, a)], map[2 := Upload(ImageMsg(u, to, pic))], [], 3, false), UploadSettles(2, Uploaded(b), now)).next == State(map[u := b], map[u := 3], map[1 := Timer(u, a), 3 := Timer(u, b)], map[], [], 4, false)
  {
  }

  /** Event 3 after the upload in `SupersededTimerSavesOldImage`, from the state listed before it. */
  lemma SupersededTimerSavesOldImageStep3(u: Sender, a: ImageInfo, b: ImageInfo)
    ensures Enabled(State(map[u := b], map[u := 3], map[1 := Timer(u, a), 3 := Timer(u, b)], map[], [], 4, false), TimerFires(1))
    ensures Step(State(map[u := b], map[u := 3], map[1 := Timer(u, a), 3 := Timer(u, b)], map[], [], 4, false), TimerFires(1)).next == State(map[u := b], map[u := 3], map[3 := Timer(u, b)], map[4 := AutoSave(u)], [Note(AutoCaption, [a])], 5, false)
  {
  }

  /** Event 4 after the upload in `SupersededTimerSavesOldImage`, from the state listed before it. */
  lemma SupersededTimerSavesOldImageStep4(u: Sender, a: ImageInfo, b: ImageInfo, now: int)
    ensures Enabled(State(map[u := b], map[u := 3], map[3 := Timer(u, b)], map[4 := AutoSave(u)], [Note(AutoCaption, [a])], 5, false), NoteSettles(4, Saved, now))
    ensures Step(State(map[u := b], map[u := 3], map[3 := Timer(u, b)], map[4 := AutoSave(u)], [Note(AutoCaption, [a])], 5, false), NoteSettles(4, Saved, now)).next == State(map[], map[], map[3 := Timer(u, b)], map[], [Note(AutoCaption, [a])], 5, false)
  {
  }

  /** Event 5 after the upload in `SupersededTimerSavesOldImage`, from the state listed before it. */
  lemma SupersededTimerSavesOldImageStep5(u: Sender, a: ImageInfo, b: ImageInfo)
    ensures Enabled(State(map[], map[], map[3 := Timer(u, b)], map[], [Note(AutoCaption, [a])], 5, false), TimerFires(3))
    ensures Step(State(map[], map[], map[3 := Timer(u, b)], map[], [Note(AutoCaption, [a])], 5, false), TimerFires(3)).next == Quiet([Note(AutoCaption, [a])], 5)
  {
  }

  /** Event 2 after the upload in `TimerAndCaptionBothSave`, from the state listed before it. */
  lemma TimerAndCaptionBothSaveStep2(u: Sender, to: Option<string>, a: ImageInfo, caption: string, now: int)
    ensures Enabled(State(map[u := a], map[u := 1], map[], map[2 := AutoSave(u)], [Note(AutoCaption, [a])], 3, false), Request(Some(TextMsg(u, to, caption)), now))
    ensures Step(State(map[u := a], map[u := 1], map[], map[2 := AutoSave(u)], [Note(AutoCaption, [a])], 3, false), Request(Some(TextMsg(u, to, caption)), now)).next == State(map[u := a], map[u := 1], map[], map[2 := AutoSave(u), 3 := CaptionNote(TextMsg(u, to, caption))], [Note(AutoCaption, [a]), Note(caption, [a])], 4, false)
  {
  }

  /** Event 3 after the upload in `TimerAndCaptionBothSave`, from the state listed before it. */
  lemma TimerAndCaptionBothSaveStep3(u: Sender, to: Option<string>, a: ImageInfo, caption: string, now: int)
    ensures Enabled(State(map[u := a], map[u := 1], map[], map[2 := AutoSave(u), 3 := CaptionNote(TextMsg(u, to, caption))], [Note(AutoCaption, [a]), Note(caption, [a])], 4, false), NoteSettles(3, Saved, now))
    ensures Step(State(map[u := a], map[u := 1], map[], map[2 := AutoSave(u), 3 := CaptionNote(TextMsg(u, to, caption))], [Note(AutoCaption, [a]), Note(caption, [a])], 4, false), NoteSettles(3, Saved, now)).next == State(map[], map[], map[], map[2 := AutoSave(u)], [Note(AutoCaption, [a]), Note(caption, [a])], 4, false)
  {
  }

  /** Event 4 after the upload in `TimerAndCaptionBothSave`, from the state listed before it. */
  lemma TimerAndCaptionBothSaveStep4(u: Sender, a: ImageInfo, caption: string, now: int)
    ensures Enabled(State(map[], map[], map[], map[2 := AutoSave(u)], [Note(AutoCaption, [a]), Note(caption, [a])], 4, false), NoteSettles(2, Saved, now))
    ensures Step(State(map[], map[], map[], map[2 := AutoSave(u)], [Note(AutoCaption, [a]), Note(caption, [a])], 4, false), NoteSettles(2, Saved, now)).next == Quiet([Note(AutoCaption, [a]), Note(caption, [a])], 4)
  {
  }

  /** Event 2 after the upload in `CaptionCleanupDropsNewerImage`, from the state listed before it. */
  lemma CaptionCleanupDropsNewerImageStep2(u: Sender, to: Option<string>, pic: Option<string>, a: ImageInfo, caption: string, now: int)
    ensures Enabled(State(map[u := a], map[u := 1], map[1 := Timer(u, a)], map[2 := CaptionNote(TextMsg(u, to, caption))], [Note(caption, [a])], 3, false), Request(Some(ImageMsg(u, to, pic)), now))
    ensures Step(State(map[u := a], map[u := 1], map[1 := Timer(u, a)], map[2 := CaptionNote(TextMsg(u, to, caption))], [Note(caption, [a])], 3, false), Request(Some(ImageMsg(u, to, pic)), now)).next == State(map[u := a], map[u := 1], map[1 := Timer(u, a)], map[2 := CaptionNote(TextMsg(u, to, caption)), 3 := Upload(ImageMsg(u, to, pic))], [Note(caption, [a])], 4, false)
  {
  }

  /** Event 3 after the upload in `CaptionCleanupDropsNewerImage`, from the state listed before it. */
  lemma CaptionCleanupDropsNewerImageStep3(u: Sender, to: Option<string>, pic: Option<string>, a: ImageInfo, b: ImageInfo, caption: string, now: int)
    ensures Enabled(State(map[u := a], map[u := 1], map[1 := Timer(u, a)], map[2 := CaptionNote(TextMsg(u, to, caption)), 3 := Upload(ImageMsg(u, to, pic))], [Note(caption, [a])], 4, false), UploadSettles(3, Uploaded(b), now))
    ensures Step(State(map[u := a], map[u := 1], map[1 := Timer(u, a)], map[2 := CaptionNote(TextMsg(u, to, caption)), 3 := Upload(ImageMsg(u, to, pic))], [Note(caption, [a])], 4, false), UploadSettles(3, Uploaded(b), now)).next == State(map[u := b], map[u := 4], map[1 := Timer(u, a), 4 := Timer(u, b)], map[2 := CaptionNote(TextMsg(u, to, caption))], [Note(caption, [a])], 5, false)
  {
  }

  /** Event 4 after the upload in `CaptionCleanupDropsNewerImage`, from the state listed before it. */
  lemma CaptionCleanupDropsNewerImageStep4(u: Sender, to: Option<string>, a: ImageInfo, b: ImageInfo, caption: string, now: int)
    ensures Enabled(State(map[u := b], map[u := 4], map[1 := Timer(u, a), 4 := Timer(u, b)], map[2 := CaptionNote(TextMsg(u, to, caption))], [Note(caption, [a])], 5, false), NoteSettles(2, Saved, now))
    ensures Step(State(map[u := b], map[u := 4], map[1 := Timer(u, a), 4 := Timer(u, b)], map[2 := CaptionNote(TextMsg(u, to, caption))], [Note(caption, [a])], 5, false), NoteSettles(2, Saved, now)).next == State(map[], map[], map[1 := Timer(u, a)], map[], [Note(caption, [a])], 5, false)
  {
  }

  /** Event 5 after the upload in `CaptionCleanupDropsNewerImage`, from the state listed before it. */
  lemma CaptionCleanupDropsNewerImageStep5(u: Sender, a: ImageInfo, caption: string)
    ensures Enabled(State(map[], map[], map[1 := Timer(u, a)], map[], [Note(caption, [a])], 5, false), TimerFires(1))
    ensures Step(State(map[], map[], map[1 := Timer(u, a)], map[], [Note(caption, [a])], 5, false), TimerFires(1)).next == Quiet([Note(caption, [a])], 5)
  {
  }

  /** An image whose upload succeeds is pending for its sender, with one timer armed for it. */
  lemma ImageUploaded(u: Sender, to: Option<string>, pic: Option<string>, a: ImageInfo, now: int)
    ensures Run(Init, [Request(Some(ImageMsg(u, to, pic)), now), UploadSettles(0, Uploaded(a), now)]) == Some(ImagePending(u, a))
  {
    assert Step(Init, Request(Some(ImageMsg(u, to, pic)), now)).next == State(map[], map[], map[], map[0 := Upload(ImageMsg(u, to, pic))], [], 1, false);
    assert Step(State(map[], map[], map[], map[0 := Upload(ImageMsg(u, to, pic))], [], 1, false), UploadSettles(0, Uploaded(a), now)).next == ImagePending(u, a);
    RunCons(State(map[], map[], map[], map[0 := Upload(ImageMsg(u, to, pic))], [], 1, false), UploadSettles(0, Uploaded(a), now), []);
    RunCons(Init, Request(Some(ImageMsg(u, to, pic)), now), [UploadSettles(0, Uploaded(a), now)]);
  }

  /** Whatever events follow a successful upload run on from the state `ImageUploaded` reaches. */
  lemma AfterUpload(u: Sender, to: Option<string>, pic: Option<string>, a: ImageInfo, now: int, rest: seq<Event>, final: State)
    requires Run(ImagePending(u, a), rest) == Some(final)
    ensures Run(Init, [Request(Some(ImageMsg(u, to, pic)), now), UploadSettles(0, Uploaded(a), now)] + rest) == Some(final)
  {
    ImageUploaded(u, to, pic, a, now);
    RunAppend(Init, [Request(Some(ImageMsg(u, to, pic)), now), UploadSettles(0, Uploaded(a), now)], rest);
  }

  /** The events of `CaptionedImageSavedOnce` after the upload, from the state `ImageUploaded` reaches. */
  lemma CaptionedImageSavedOnceAfterUpload(u: Sender, to: Option<string>, a: ImageInfo, caption: string, now: int)
    ensures Run(ImagePending(u, a), [Request(Some(TextMsg(u, to, caption)), now), NoteSettles(2, Saved, now)])
      == Some(Quiet([Note(caption, [a])], 3))
  {
    var e2 := Request(Some(TextMsg(u, to, caption)), now);
    var e3 := NoteSettles(2, Saved, now);
    var s3 := State(map[u := a], map[u := 1], map[1 := Timer(u, a)], map[2 := CaptionNote(TextMsg(u, to, caption))], [Note(caption, [a])], 3, false);
    CaptionWhileImagePending(u, to, a, caption, now);
    CaptionedImageSavedOnceStep2(u, to, a, caption, now);
    RunCons(s3, e3, []);
    RunCons(ImagePending(u, a), e2, [e3]);
  }

  /**
   * An image followed by its caption is saved once, as one note with the
   * caption and the image, and its timer is cleared so that it cannot save
   * the image again.
   */
  lemma CaptionedImageSavedOnce(u: Sender, to: Option<string>, pic: Option<string>, a: ImageInfo, caption: string, now: int)
    ensures Run(Init, [
      Request(Some(ImageMsg(u, to, pic)), now),
      UploadSettles(0, Uploaded(a), now),
      Request(Some(TextMsg(u, to, caption)), now),
      NoteSettles(2, Saved, now)])
      == Some(Quiet([Note(caption, [a])], 3))
  {
    CaptionedImageSavedOnceAfterUpload(u, to, a, caption, now);
    AfterUpload(u, to, pic, a, now, [Request(Some(TextMsg(u, to, caption)), now), NoteSettles(2, Saved, now)], Quiet([Note(caption, [a])], 3));
    assert [Request(Some(ImageMsg(u, to, pic)), now), UploadSettles(0, Uploaded(a), now), Request(Some(TextMsg(u, to, caption)), now), NoteSettles(2, Saved, now)]
        == [Request(Some(ImageMsg(u, to, pic)), now), UploadSettles(0, Uploaded(a), now)] + [Request(Some(TextMsg(u, to, caption)), now), NoteSettles(2, Saved, now)];
  }

  /** The events of `UncaptionedImageAutoSaved` after the upload, from the state `ImageUploaded` reaches. */
  lemma UncaptionedImageAutoSavedAfterUpload(u: Sender, a: ImageInfo, now: int)
    ensures Run(ImagePending(u, a), [TimerFires(1), NoteSettles(2, Saved, now)])
      == Some(Quiet([Note(AutoCaption, [a])], 3))
  {
    var e2 := TimerFires(1);
    var e3 := NoteSettles(2, Saved, now);
    var s3 := State(map[u := a], map[u := 1], map[], map[2 := AutoSave(u)], [Note(AutoCaption, [a])], 3, false);
    TimerWhileImagePending(u, a);
    UncaptionedImageAutoSavedStep2(u, a, now);
    RunCons(s3, e3, []);
    RunCons(ImagePending(u, a), e2, [e3]);
  }

  /** An image with no caption is saved by its timer, with the default caption. */
  lemma UncaptionedImageAutoSaved(u: Sender, to: Option<string>, pic: Option<string>, a: ImageInfo, now: int)
    ensures Run(Init, [
      Request(Some(ImageMsg(u, to, pic)), now),
      UploadSettles(0, Uploaded(a), now),
      TimerFires(1),
      NoteSettles(2, Saved, now)])
      == Some(Quiet([Note(AutoCaption, [a])], 3))
  {
    UncaptionedImageAutoSavedAfterUpload(u, a, now);
    AfterUpload(u, to, pic, a, now, [TimerFires(1), NoteSettles(2, Saved, now)], Quiet([Note(AutoCaption, [a])], 3));
    assert [Request(Some(ImageMsg(u, to, pic)), now), UploadSettles(0, Uploaded(a), now), TimerFires(1), NoteSettles(2, Saved, now)]
        == [Request(Some(ImageMsg(u, to, pic)), now), UploadSettles(0, Uploaded(a), now)] + [TimerFires(1), NoteSettles(2, Saved, now)];
  }

  /** A text with no pending image is saved alone, with no attachment. */
  lemma PlainTextSaved(u: Sender, to: Option<string>, caption: string, now: int)
    ensures Run(Init, [
      Request(Some(TextMsg(u, to, caption)), now),
      NoteSettles(0, Saved, now)])
      == Some(Quiet([Note(caption, [])], 1))
  {
    var e0 := Request(Some(TextMsg(u, to, caption)), now);
    var e1 := NoteSettles(0, Saved, now);
    assert Step(Init, e0).next == State(map[], map[], map[], map[0 := TextNote(TextMsg(u, to, caption))], [Note(caption, [])], 1, false);
    assert Step(State(map[], map[], map[], map[0 := TextNote(TextMsg(u, to, caption))], [Note(caption, [])], 1, false), e1).next == Quiet([Note(caption, [])], 1);
    RunCons(State(map[], map[], map[], map[0 := TextNote(TextMsg(u, to, caption))], [Note(caption, [])], 1, false), e1, []);
    RunCons(Init, e0, [e1]);
  }

  /** The events of `ShutdownDropsPendingImage` after the upload, from the state `ImageUploaded` reaches. */
  lemma ShutdownDropsPendingImageAfterUpload(u: Sender, a: ImageInfo)
    ensures Run(ImagePending(u, a), [Terminate])
      == Some(State(map[u := a], map[u := 1], map[], map[], [], 2, true))
  {
    var e2 := Terminate;
    ShutdownDropsPendingImageStep1(u, a);
    RunCons(ImagePending(u, a), e2, []);
  }

  /**
   * SIGTERM while an image waits for its caption clears its timer and sends
   * nothing; the pending image is lost with the process.
   */
  lemma ShutdownDropsPendingImage(u: Sender, to: Option<string>, pic: Option<string>, a: ImageInfo, now: int)
    ensures Run(Init, [
      Request(Some(ImageMsg(u, to, pic)), now),
      UploadSettles(0, Uploaded(a), now),
      Terminate])
      == Some(State(map[u := a], map[u := 1], map[], map[], [], 2, true))
  {
    ShutdownDropsPendingImageAfterUpload(u, a);
    AfterUpload(u, to, pic, a, now, [Terminate], State(map[u := a], map[u := 1], map[], map[], [], 2, true));
    assert [Request(Some(ImageMsg(u, to, pic)), now), UploadSettles(0, Uploaded(a), now), Terminate]
        == [Request(Some(ImageMsg(u, to, pic)), now), UploadSettles(0, Uploaded(a), now)] + [Terminate];
  }

  /** The events of `SupersededTimerSavesOldImage` after the upload, from the state `ImageUploaded` reaches. */
  lemma SupersededTimerSavesOldImageAfterUpload(u: Sender, to: Option<string>, pic: Option<string>, a: ImageInfo, b: ImageInfo, now: int)
    ensures Run(ImagePending(u, a), [Request(Some(ImageMsg(u, to, pic)), now), UploadSettles(2, Uploaded(b), now), TimerFires(1), NoteSettles(4, Saved, now), TimerFires(3)])
      == Some(Quiet([Note(AutoCaption, [a])], 5))
  {
    var e2 := Request(Some(ImageMsg(u, to, pic)), now);
    var e3 := UploadSettles(2, Uploaded(b), now);
    var e4 := TimerFires(1);
    var e5 := NoteSettles(4, Saved, now);
    var e6 := TimerFires(3);
    var s3 := State(map[u := a], map[u := 1], map[1 := Timer(u, a)], map[2 := Upload(ImageMsg(u, to, pic))], [], 3, false);
    var s4 := State(map[u := b], map[u := 3], map[1 := Timer(u, a), 3 := Timer(u, b)], map[], [], 4, false);
    var s5 := State(map[u := b], map[u := 3], map[3 := Timer(u, b)], map[4 := AutoSave(u)], [Note(AutoCaption, [a])], 5, false);
    var s6 := State(map[], map[], map[3 := Timer(u, b)], map[], [Note(AutoCaption, [a])], 5, false);
    SupersededTimerSavesOldImageStep1(u, to, pic, a, now);
    SupersededTimerSavesOldImageStep2(u, to, pic, a, b, now);
    SupersededTimerSavesOldImageStep3(u, a, b);
    SupersededTimerSavesOldImageStep4(u, a, b, now);
    SupersededTimerSavesOldImageStep5(u, a, b);
    RunCons(s6, e6, []);
    RunCons(s5, e5, [e6]);
    RunCons(s4, e4, [e5, e6]);
    RunCons(s3, e3, [e4, e5, e6]);
    RunCons(ImagePending(u, a), e2, [e3, e4, e5, e6]);
  }

  /**
   * A second image replaces the first, but the first image's timer is never
   * cleared: when it fires it finds the sender pending, saves the FIRST
   * image with the default caption and deletes the second image's entry.
   * The second image is never saved, and nothing is left that could save it.
   */
  lemma SupersededTimerSavesOldImage(u: Sender, to: Option<string>, pic: Option<string>, a: ImageInfo, b: ImageInfo, now: int)
    ensures Run(Init, [
      Request(Some(ImageMsg(u, to, pic)), now),
      UploadSettles(0, Uploaded(a), now),
      Request(Some(ImageMsg(u, to, pic)), now),
      UploadSettles(2, Uploaded(b), now),
      TimerFires(1),
      NoteSettles(4, Saved, now),
      TimerFires(3)])
      == Some(Quiet([Note(AutoCaption, [a])], 5))
  {
    SupersededTimerSavesOldImageAfterUpload(u, to, pic, a, b, now);
    AfterUpload(u, to, pic, a, now, [Request(Some(ImageMsg(u, to, pic)), now), UploadSettles(2, Uploaded(b), now), TimerFires(1), NoteSettles(4, Saved, now), TimerFires(3)], Quiet([Note(AutoCaption, [a])], 5));
    assert [Request(Some(ImageMsg(u, to, pic)), now), UploadSettles(0, Uploaded(a), now), Request(Some(ImageMsg(u, to, pic)), now), UploadSettles(2, Uploaded(b), now), TimerFires(1), NoteSettles(4, Saved, now), TimerFires(3)]
        == [Request(Some(ImageMsg(u, to, pic)), now), UploadSettles(0, Uploaded(a), now)] + [Request(Some(ImageMsg(u, to, pic)), now), UploadSettles(2, Uploaded(b), now), TimerFires(1), NoteSettles(4, Saved, now), TimerFires(3)];
  }

  /** The events of `TimerAndCaptionBothSave` after the upload, from the state `ImageUploaded` reaches. */
  lemma TimerAndCaptionBothSaveAfterUpload(u: Sender, to: Option<string>, a: ImageInfo, caption: string, now: int)
    ensures Run(ImagePending(u, a), [TimerFires(1), Request(Some(TextMsg(u, to, caption)), now), NoteSettles(3, Saved, now), NoteSettles(2, Saved, now)])
      == Some(Quiet([Note(AutoCaption, [a]), Note(caption, [a])], 4))
  {
    var e2 := TimerFires(1);
    var e3 := Request(Some(TextMsg(u, to, caption)), now);
    var e4 := NoteSettles(3, Saved, now);
    var e5 := NoteSettles(2, Saved, now);
    var s3 := State(map[u := a], map[u := 1], map[], map[2 := AutoSave(u)], [Note(AutoCaption, [a])], 3, false);
    var s4 := State(map[u := a], map[u := 1], map[], map[2 := AutoSave(u), 3 := CaptionNote(TextMsg(u, to, caption))], [Note(AutoCaption, [a]), Note(caption, [a])], 4, false);
    var s5 := State(map[], map[], map[], map[2 := AutoSave(u)], [Note(AutoCaption, [a]), Note(caption, [a])], 4, false);
    TimerWhileImagePending(u, a);
    TimerAndCaptionBothSaveStep2(u, to, a, caption, now);
    TimerAndCaptionBothSaveStep3(u, to, a, caption, now);
    TimerAndCaptionBothSaveStep4(u, a, caption, now);
    RunCons(s5, e5, []);
    RunCons(s4, e4, [e5]);
    RunCons(s3, e3, [e4, e5]);
    RunCons(ImagePending(u, a), e2, [e3, e4, e5]);
  }

  /**
   * A caption that arrives while the timer's auto-save is suspended still
   * finds the image pending: the same image is saved twice, once with the
   * default caption and once with the caption.
   */
  lemma TimerAndCaptionBothSave(u: Sender, to: Option<string>, pic: Option<string>, a: ImageInfo, caption: string, now: int)
    ensures Run(Init, [
      Request(Some(ImageMsg(u, to, pic)), now),
      UploadSettles(0, Uploaded(a), now),
      TimerFires(1),
      Request(Some(TextMsg(u, to, caption)), now),
      NoteSettles(3, Saved, now),
      NoteSettles(2, Saved, now)])
      == Some(Quiet([Note(AutoCaption, [a]), Note(caption, [a])], 4))
  {
    TimerAndCaptionBothSaveAfterUpload(u, to, a, caption, now);
    AfterUpload(u, to, pic, a, now, [TimerFires(1), Request(Some(TextMsg(u, to, caption)), now), NoteSettles(3, Saved, now), NoteSettles(2, Saved, now)], Quiet([Note(AutoCaption, [a]), Note(caption, [a])], 4));
    assert [Request(Some(ImageMsg(u, to, pic)), now), UploadSettles(0, Uploaded(a), now), TimerFires(1), Request(Some(TextMsg(u, to, caption)), now), NoteSettles(3, Saved, now), NoteSettles(2, Saved, now)]
        == [Request(Some(ImageMsg(u, to, pic)), now), UploadSettles(0, Uploaded(a), now)] + [TimerFires(1), Request(Some(TextMsg(u, to, caption)), now), NoteSettles(3, Saved, now), NoteSettles(2, Saved, now)];
  }

  /** The events of `CaptionCleanupDropsNewerImage` after the upload, from the state `ImageUploaded` reaches. */
  lemma CaptionCleanupDropsNewerImageAfterUpload(u: Sender, to: Option<string>, pic: Option<string>, a: ImageInfo, b: ImageInfo, caption: string, now: int)
    ensures Run(ImagePending(u, a), [Request(Some(TextMsg(u, to, caption)), now), Request(Some(ImageMsg(u, to, pic)), now), UploadSettles(3, Uploaded(b), now), NoteSettles(2, Saved, now), TimerFires(1)])
      == Some(Quiet([Note(caption, [a])], 5))
  {
    var e2 := Request(Some(TextMsg(u, to, caption)), now);
    var e3 := Request(Some(ImageMsg(u, to, pic)), now);
    var e4 := UploadSettles(3, Uploaded(b), now);
    var e5 := NoteSettles(2, Saved, now);
    var e6 := TimerFires(1);
    var s3 := State(map[u := a], map[u := 1], map[1 := Timer(u, a)], map[2 := CaptionNote(TextMsg(u, to, caption))], [Note(caption, [a])], 3, false);
    var s4 := State(map[u := a], map[u := 1], map[1 := Timer(u, a)], map[2 := CaptionNote(TextMsg(u, to, caption)), 3 := Upload(ImageMsg(u, to, pic))], [Note(caption, [a])], 4, false);
    var s5 := State(map[u := b], map[u := 4], map[1 := Timer(u, a), 4 := Timer(u, b)], map[2 := CaptionNote(TextMsg(u, to, caption))], [Note(caption, [a])], 5, false);
    var s6 := State(map[], map[], map[1 := Timer(u, a)], map[], [Note(caption, [a])], 5, false);
    CaptionWhileImagePending(u, to, a, caption, now);
    CaptionCleanupDropsNewerImageStep2(u, to, pic, a, caption, now);
    CaptionCleanupDropsNewerImageStep3(u, to, pic, a, b, caption, now);
    CaptionCleanupDropsNewerImageStep4(u, to, a, b, caption, now);
    CaptionCleanupDropsNewerImageStep5(u, a, caption);
    RunCons(s6, e6, []);
    RunCons(s5, e5, [e6]);
    RunCons(s4, e4, [e5, e6]);
    RunCons(s3, e3, [e4, e5, e6]);
    RunCons(ImagePending(u, a), e2, [e3, e4, e5, e6]);
  }

  /**
   * A second image uploaded while the caption's note is suspended is wiped
   * out when the caption handler resumes: its entry is deleted and its timer
   * cleared, so it is never saved. The first image's stale timer then fires
   * and finds nothing pending.
   */
  lemma CaptionCleanupDropsNewerImage(u: Sender, to: Option<string>, pic: Option<string>, a: ImageInfo, b: ImageInfo, caption: string, now: int)
    ensures Run(Init, [
      Request(Some(ImageMsg(u, to, pic)), now),
      UploadSettles(0, Uploaded(a), now),
      Request(Some(TextMsg(u, to, caption)), now),
      Request(Some(ImageMsg(u, to, pic)), now),
      UploadSettles(3, Uploaded(b), now),
      NoteSettles(2, Saved, now),
      TimerFires(1)])
      == Some(Quiet([Note(caption, [a])], 5))
  {
    CaptionCleanupDropsNewerImageAfterUpload(u, to, pic, a, b, caption, now);
    AfterUpload(u, to, pic, a, now, [Request(Some(TextMsg(u, to, caption)), now), Request(Some(ImageMsg(u, to, pic)), now), UploadSettles(3, Uploaded(b), now), NoteSettles(2, Saved, now), TimerFires(1)], Quiet([Note(caption, [a])], 5));
    assert [Request(Some(ImageMsg(u, to, pic)), now), UploadSettles(0, Uploaded(a), now), Request(Some(TextMsg(u, to, caption)), now), Request(Some(ImageMsg(u, to, pic)), now), UploadSettles(3, Uploaded(b), now), NoteSettles(2, Saved, now), TimerFires(1)]
        == [Request(Some(ImageMsg(u, to, pic)), now), UploadSettles(0, Uploaded(a), now)] + [Request(Some(TextMsg(u, to, caption)), now), Request(Some(ImageMsg(u, to, pic)), now), UploadSettles(3, Uploaded(b), now), NoteSettles(2, Saved, now), TimerFires(1)];
  }
}
