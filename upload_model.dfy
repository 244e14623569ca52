/**
 * The upload widget of components/upload-form.tsx as a state machine over values.
 *
 * The component keeps five pieces of React state (isDragging, file, preview,
 * progress, isUploading). Two kinds of browser activity outlive the handler that
 * starts them: the `FileReader` whose `onload` later sets the preview, and the
 * `setInterval` timer that moves the progress bar. `removeFile` cancels neither
 * (only the interval's own callback clears it, once at 100), so the state below
 * also records the live intervals and the reads still in flight, and their
 * callbacks are events of their own (`Tick`, `ReadDone`).
 * `alert` is recorded as a count of warnings shown.
 */
module UploadModel {
  import opened Wrappers

  /** A browser `File`: its name, its size in bytes and its declared media type. */
  datatype File = File(name: string, size: nat, mediaType: string)

  /** The media-type prefix that `handleFile` demands of an accepted file. */
  const ImagePrefix: string := "image/"

  /** How much one interval tick adds to the progress bar, and where it stops. */
  const ProgressStep: int := 5
  const ProgressFull: int := 100

  /** `file.type.startsWith("image/")`. */
  predicate IsImage(f: File) {
    ImagePrefix <= f.mediaType
  }

  datatype State = State(
    isDragging: bool,
    file: Option<File>,
    preview: Option<string>,     // the data URL of a completed read
    progress: int,
    isUploading: bool,
    liveIntervals: nat,          // intervals started by simulateUpload and not yet cleared
    pendingReads: seq<File>,     // FileReader reads started by handleFile, not yet loaded
    alerts: nat)                 // warnings shown with `alert`

  /** The values the five `useState` calls start from; nothing is in flight. */
  function Initial(): State {
    State(false, None, None, 0, false, 0, [], 0)
  }

  /**
   * What every reachable state satisfies: the progress bar is a multiple of the
   * step within 0..100, and the widget only shows itself uploading while some
   * interval is still live to end it.
   */
  predicate Valid(s: State) {
    && 0 <= s.progress <= ProgressFull
    && s.progress % ProgressStep == 0
    && (s.isUploading ==> s.liveIntervals > 0)
  }

  /** Everything that can happen to the widget: user events and browser callbacks. */
  datatype Event =
    | DragOver                            // handleDragOver
    | DragLeave                           // handleDragLeave
    | Drop(files: seq<File>)              // handleDrop; a missing list is the empty one
    | FileChange(files: seq<File>)        // handleFileChange; a missing list is the empty one
    | Remove                              // removeFile
    | Simulate                            // simulateUpload
    | Tick                                // one firing of a live interval's callback
    | ReadDone(index: nat, dataUrl: string) // reader.onload of pendingReads[index]

  /** Whether the browser can deliver the event: a callback needs something in flight. */
  predicate Enabled(s: State, e: Event) {
    match e
    case Tick => s.liveIntervals > 0
    case ReadDone(k, _) => k < |s.pendingReads|
    case _ => true
  }

  /** `handleFile`: the media-type guard, then the selection and the start of a read. */
  function HandleFile(s: State, f: File): (r: State)
    ensures IsImage(f) ==> r.file == Some(f) && r.pendingReads == s.pendingReads + [f] && r.alerts == s.alerts
    ensures !IsImage(f) ==> r.file == s.file && r.pendingReads == s.pendingReads && r.alerts == s.alerts + 1
    ensures r.preview == s.preview && r.progress == s.progress && r.isUploading == s.isUploading
    ensures r.isDragging == s.isDragging && r.liveIntervals == s.liveIntervals
  {
    if !IsImage(f) then
      s.(alerts := s.alerts + 1)
    else
      s.(file := Some(f), pendingReads := s.pendingReads + [f])
  }

  /** The handler or callback run for one event. An event that is not enabled changes nothing. */
  function Step(s: State, e: Event): (r: State)
    ensures Valid(s) ==> Valid(r)
    ensures !Enabled(s, e) ==> r == s
    ensures r.alerts >= s.alerts && |r.pendingReads| + 1 >= |s.pendingReads|
    ensures e.Tick? ==> s.progress <= r.progress || s.progress > ProgressFull
  {
    match e
    case DragOver => s.(isDragging := true)
    case DragLeave => s.(isDragging := false)
    case Drop(files) =>
      var t := s.(isDragging := false);
      if |files| > 0 then HandleFile(t, files[0]) else t
    case FileChange(files) =>
      if |files| > 0 then HandleFile(s, files[0]) else s
    case Remove =>
      s.(file := None, preview := None, progress := 0, isUploading := false)
    case Simulate =>
      s.(isUploading := true, progress := 0, liveIntervals := s.liveIntervals + 1)
    case Tick =>
      if s.liveIntervals == 0 then s
      else if s.progress >= ProgressFull then
        s.(progress := ProgressFull, isUploading := false, liveIntervals := s.liveIntervals - 1)
      else
        s.(progress := s.progress + ProgressStep)
    case ReadDone(k, url) =>
      if k < |s.pendingReads| then
        s.(preview := Some(url), pendingReads := s.pendingReads[..k] + s.pendingReads[k + 1..])
      else s
  }

  /** The state after a sequence of events, in order. */
  function Run(s: State, events: seq<Event>): State
    decreases |events|
  {
    if events == [] then s else Run(Step(s, events[0]), events[1..])
  }

  /** The state after `n` interval ticks with no other event in between. */
  function Ticks(s: State, n: nat): State
    decreases n
  {
    if n == 0 then s else Ticks(Step(s, Tick), n - 1)
  }

  /**
   * How many more ticks the live intervals deliver before the last of them clears
   * itself: the first needs the progress bar to reach 100 and one tick more, every
   * other one only the tick that sees 100.
   */
  function TicksToDrain(s: State): nat
    requires Valid(s)
  {
    if s.liveIntervals == 0 then 0 else (ProgressFull - s.progress) / ProgressStep + s.liveIntervals
  }

  // ---------------------------------------------------------------------------
  // One event at a time

  /** A file whose type is not `image/...` raises exactly one warning and changes nothing else. */
  lemma RejectsNonImage(s: State, f: File)
    requires !IsImage(f)
    ensures HandleFile(s, f).alerts == s.alerts + 1
    ensures HandleFile(s, f).(alerts := s.alerts) == s
  {
  }

  /**
   * An image becomes the selected file and a read of exactly that file is started;
   * the preview is left as it was until that read completes.
   */
  lemma AcceptsImage(s: State, f: File)
    requires IsImage(f)
    ensures HandleFile(s, f).file == Some(f)
    ensures HandleFile(s, f).pendingReads == s.pendingReads + [f]
    ensures HandleFile(s, f).(file := s.file, pendingReads := s.pendingReads) == s
  {
  }

  /** A completed read sets the preview to that read's result and retires that read only. */
  lemma ReadDoneSetsPreview(s: State, k: nat, url: string)
    requires Enabled(s, ReadDone(k, url))
    ensures Step(s, ReadDone(k, url)).preview == Some(url)
    ensures Step(s, ReadDone(k, url)).pendingReads == s.pendingReads[..k] + s.pendingReads[k + 1..]
    ensures multiset(Step(s, ReadDone(k, url)).pendingReads) + multiset{s.pendingReads[k]} == multiset(s.pendingReads)
    ensures Step(s, ReadDone(k, url)).(preview := s.preview, pendingReads := s.pendingReads) == s
  {
    assert s.pendingReads == s.pendingReads[..k] + [s.pendingReads[k]] + s.pendingReads[k + 1..];
  }

  /**
   * Drop and file change act only on a non-empty list, and then only on its first
   * file: two lists that start with the same file lead to the same state.
   */
  lemma OnlyFirstFileCounts(s: State, files: seq<File>, others: seq<File>)
    requires |files| > 0 && |others| > 0 && files[0] == others[0]
    ensures Step(s, FileChange(files)) == Step(s, FileChange(others)) == HandleFile(s, files[0])
    ensures Step(s, Drop(files)) == Step(s, Drop(others))
  {
  }

  /** An empty list (or none at all) leaves file change a no-op and drop a reset of the highlight. */
  lemma EmptyListIgnored(s: State)
    ensures Step(s, FileChange([])) == s
    ensures Step(s, Drop([])) == s.(isDragging := false)
  {
  }

  /**
   * Drag-over raises the highlight and drag-leave lowers it, touching nothing else;
   * drop lowers it and then does exactly what a file change with the same list does.
   */
  lemma DragHighlight(s: State, files: seq<File>)
    ensures Step(s, DragOver).isDragging && Step(s, DragOver).(isDragging := s.isDragging) == s
    ensures !Step(s, DragLeave).isDragging && Step(s, DragLeave).(isDragging := s.isDragging) == s
    ensures !Step(s, Drop(files)).isDragging
    ensures Step(s, Drop(files)) == Step(s.(isDragging := false), FileChange(files))
  {
  }

  /**
   * Removal clears the selection, the preview and the progress bar, and is
   * idempotent; it cancels neither the live intervals nor the pending reads.
   */
  lemma RemoveResets(s: State)
    ensures Step(s, Remove).file == None && Step(s, Remove).preview == None
    ensures Step(s, Remove).progress == 0 && !Step(s, Remove).isUploading
    ensures Step(s, Remove).liveIntervals == s.liveIntervals
    ensures Step(s, Remove).pendingReads == s.pendingReads
    ensures Step(s, Remove).(file := s.file, preview := s.preview, progress := s.progress,
                             isUploading := s.isUploading) == s
    ensures Step(Step(s, Remove), Remove) == Step(s, Remove)
  {
  }

  /** Removing an already empty widget changes nothing. */
  lemma RemoveOnEmptyIsNoOp(s: State)
    requires s.file == None && s.preview == None && s.progress == 0 && !s.isUploading
    ensures Step(s, Remove) == s
  {
  }

  /** Starting the simulated upload shows it uploading from 0 and starts one more interval. */
  lemma SimulateStartsInterval(s: State)
    ensures Step(s, Simulate).isUploading && Step(s, Simulate).progress == 0
    ensures Step(s, Simulate).liveIntervals == s.liveIntervals + 1
    ensures Step(s, Simulate).(isUploading := s.isUploading, progress := s.progress,
                               liveIntervals := s.liveIntervals) == s
  {
  }

  /**
   * Choosing an image and starting, then removing it, choosing another and starting
   * again leaves two intervals running, both driving the one progress bar.
   */
  lemma RestartAfterRemoveRunsTwo(a: File, b: File)
    requires IsImage(a) && IsImage(b)
    ensures var s := Step(Step(Step(Step(Step(Initial(), FileChange([a])), Simulate), Remove),
                               FileChange([b])), Simulate);
      s.liveIntervals == 2 && s.isUploading && s.progress == 0 && s.file == Some(b)
  {
  }

  /**
   * One tick: below 100 it adds 5 and nothing else; at 100 or above it pins the bar
   * at 100, clears the interval that fired and ends the upload display.
   */
  lemma TickEffect(s: State)
    requires Enabled(s, Tick)
    ensures s.progress < ProgressFull ==>
      Step(s, Tick) == s.(progress := s.progress + ProgressStep)
    ensures s.progress >= ProgressFull ==>
      && Step(s, Tick).progress == ProgressFull
      && !Step(s, Tick).isUploading
      && Step(s, Tick).liveIntervals == s.liveIntervals - 1
    ensures s.progress >= ProgressFull ==>
      Step(s, Tick).(progress := s.progress, isUploading := s.isUploading,
                     liveIntervals := s.liveIntervals) == s
  {
  }

  // ---------------------------------------------------------------------------
  // Sequences of events

  /** Every sequence of events keeps the widget valid, starting from any valid state. */
  lemma {:induction false} RunPreservesValid(s: State, events: seq<Event>)
    requires Valid(s)
    ensures Valid(Run(s, events))
    decreases |events|
  {
    if events != [] {
      RunPreservesValid(Step(s, events[0]), events[1..]);
    }
  }

  /** Hence every state the widget reaches from its initial values is valid. */
  lemma ReachableIsValid(events: seq<Event>)
    ensures Valid(Run(Initial(), events))
  {
    RunPreservesValid(Initial(), events);
  }

  /** While the bar has room, `n` ticks add exactly `5 * n` and change nothing else. */
  lemma {:induction false} TicksAdvance(s: State, n: nat)
    requires s.liveIntervals > 0
    requires 0 <= s.progress && s.progress + ProgressStep * n <= ProgressFull
    ensures Ticks(s, n) == s.(progress := s.progress + ProgressStep * n)
    decreases n
  {
    if n > 0 {
      var t := Step(s, Tick);
      assert t == s.(progress := s.progress + ProgressStep);
      TicksAdvance(t, n - 1);
    }
  }

  /**
   * Ticks never lower the bar, never start intervals, and keep the widget valid.
   */
  lemma {:induction false} TicksMonotone(s: State, n: nat)
    requires Valid(s)
    ensures Valid(Ticks(s, n))
    ensures s.progress <= Ticks(s, n).progress
    ensures Ticks(s, n).liveIntervals <= s.liveIntervals
    decreases n
  {
    if n > 0 {
      TicksMonotone(Step(s, Tick), n - 1);
    }
  }

  /**
   * After "Process X-ray", the bar reads 5 * n after n ticks for n up to 20, so it
   * reaches 100 on the 20th tick while the widget still shows it uploading; only the
   * 21st tick ends the display, clearing the interval that was started.
   */
  lemma {:induction false} UploadRunsToCompletion(s: State, n: nat)
    requires n <= 20
    ensures Ticks(Step(s, Simulate), n).progress == ProgressStep * n
    ensures Ticks(Step(s, Simulate), n).isUploading
    ensures Ticks(Step(s, Simulate), 20).progress == ProgressFull
    ensures Ticks(Step(s, Simulate), 21) ==
      s.(progress := ProgressFull, isUploading := false)
  {
    var t := Step(s, Simulate);
    TicksAdvance(t, n);
    TicksAdvance(t, 20);
    var u := Ticks(t, 20);
    assert Ticks(u, 1) == Step(u, Tick);
    TicksSplit(t, 20, 1);
  }

  /** Ticking `m` then `n` times is ticking `m + n` times. */
  lemma {:induction false} TicksSplit(s: State, m: nat, n: nat)
    ensures Ticks(Ticks(s, m), n) == Ticks(s, m + n)
    decreases m
  {
    if m > 0 {
      TicksSplit(Step(s, Tick), m - 1, n);
    }
  }

  /**
   * Removal does not cancel a live interval: the following ticks move the bar of the
   * emptied widget again, 5 per tick, up to 100.
   */
  lemma RemoveDoesNotCancel(s: State, n: nat)
    requires s.liveIntervals > 0 && n <= 20
    ensures Ticks(Step(s, Remove), n).progress == ProgressStep * n
    ensures Ticks(Step(s, Remove), n).file == None
  {
    TicksAdvance(Step(s, Remove), n);
  }

  /** One tick brings the live intervals one tick closer to all being cleared. */
  lemma TickDrains(s: State)
    requires Valid(s) && s.liveIntervals > 0
    ensures Valid(Step(s, Tick))
    ensures TicksToDrain(Step(s, Tick)) == TicksToDrain(s) - 1
  {
  }

  /**
   * Left alone, the intervals deliver exactly `TicksToDrain(s)` ticks: an interval
   * is live before that many ticks, and none is live after them. So an interval
   * started and then orphaned by removal clears itself, but only after running the
   * bar of the emptied widget back up to 100.
   */
  lemma {:induction false} IntervalsDrain(s: State, n: nat)
    requires Valid(s)
    ensures n < TicksToDrain(s) ==> Ticks(s, n).liveIntervals > 0
    ensures n >= TicksToDrain(s) ==> Ticks(s, n).liveIntervals == 0
    decreases n
  {
    if n > 0 && s.liveIntervals > 0 {
      TickDrains(s);
      IntervalsDrain(Step(s, Tick), n - 1);
    } else if n > 0 {
      NoIntervalNoTick(s, n);
    }
  }

  /** Without a live interval, time passing changes nothing. */
  lemma {:induction false} NoIntervalNoTick(s: State, n: nat)
    requires s.liveIntervals == 0
    ensures Ticks(s, n) == s
    decreases n
  {
    if n > 0 {
      NoIntervalNoTick(Step(s, Tick), n - 1);
    }
  }

  /**
   * A read that completes after removal still installs its preview, so the widget
   * can hold a preview with no file selected.
   */
  lemma StalePreviewAfterRemove(s: State, url: string)
    requires |s.pendingReads| > 0
    ensures Step(Step(s, Remove), ReadDone(0, url)).file == None
    ensures Step(Step(s, Remove), ReadDone(0, url)).preview == Some(url)
  {
  }

  /**
   * Reads are not ordered either: when an image is chosen, removed and replaced by
   * another, and the first read finishes after the second, the first file's
   * preview stands beside the second selection.
   */
  lemma OlderReadFinishesLast(s: State, a: File, b: File, ua: string, ub: string)
    requires IsImage(a) && IsImage(b) && s.pendingReads == []
    ensures var t := Step(Step(Step(Step(Step(s, FileChange([a])), Remove), FileChange([b])),
                               ReadDone(1, ub)), ReadDone(0, ua));
      t.file == Some(b) && t.preview == Some(ua) && t.pendingReads == []
  {
    var t3 := Step(Step(Step(s, FileChange([a])), Remove), FileChange([b]));
    assert t3.pendingReads == [a, b];
    var t4 := Step(t3, ReadDone(1, ub));
    assert t4.pendingReads == [a];
  }

  /** The preview changes only through a completed read or a removal. */
  lemma PreviewOnlyFromReadOrRemove(s: State, e: Event)
    requires !e.ReadDone? && !e.Remove?
    ensures Step(s, e).preview == s.preview
  {
  }
}
