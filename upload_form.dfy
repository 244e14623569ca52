/**
 * The `UploadForm` component of components/upload-form.tsx as an object whose
 * handlers update its fields in place. Each `useState` pair becomes a field; the
 * intervals and reads the browser keeps running for it are fields too, since
 * `removeFile` cancels neither. Each method is proved against `UploadModel.Step`,
 * whose properties are proved in that module.
 */
module UploadComponent {
  import opened Wrappers
  import opened UploadModel

  class UploadForm {
    var isDragging: bool
    var file: Option<File>
    var preview: Option<string>
    var progress: int
    var isUploading: bool
    var liveIntervals: nat
    var pendingReads: seq<File>
    var alerts: nat

    /** The component's state as a value of the state machine. */
    function Snapshot(): State
      reads this
    {
      State(isDragging, file, preview, progress, isUploading, liveIntervals, pendingReads, alerts)
    }

    predicate Valid()
      reads this
    {
      UploadModel.Valid(Snapshot())
    }

    /** Mounting the component: every `useState` at its initial value. */
    constructor ()
      ensures Valid() && Snapshot() == Initial()
    {
      isDragging := false;
      file := None;
      preview := None;
      progress := 0;
      isUploading := false;
      liveIntervals := 0;
      pendingReads := [];
      alerts := 0;
    }

    /** `handleDragOver`; the browser's default handling is left out. */
    method HandleDragOver()
      requires Valid()
      modifies this
      ensures Valid() && Snapshot() == Step(old(Snapshot()), DragOver)
    {
      isDragging := true;
    }

    method HandleDragLeave()
      requires Valid()
      modifies this
      ensures Valid() && Snapshot() == Step(old(Snapshot()), DragLeave)
    {
      isDragging := false;
    }

    method HandleDrop(files: seq<File>)
      requires Valid()
      modifies this
      ensures Valid() && Snapshot() == Step(old(Snapshot()), Drop(files))
    {
      isDragging := false;
      if |files| > 0 {
        HandleFile(files[0]);
      }
    }

    method HandleFileChange(files: seq<File>)
      requires Valid()
      modifies this
      ensures Valid() && Snapshot() == Step(old(Snapshot()), FileChange(files))
    {
      if |files| > 0 {
        HandleFile(files[0]);
      }
    }

    /** `handleFile`: warn and stop on a non-image; otherwise select it and start its read. */
    method HandleFile(f: File)
      requires Valid()
      modifies this
      ensures Valid() && Snapshot() == UploadModel.HandleFile(old(Snapshot()), f)
    {
      if !IsImage(f) {
        alerts := alerts + 1;
        return;
      }
      file := Some(f);
      pendingReads := pendingReads + [f];
    }

    /** `reader.onload` of the read at position `k` among those in flight. */
    method PreviewLoaded(k: nat, dataUrl: string)
      requires Valid() && Enabled(Snapshot(), ReadDone(k, dataUrl))
      modifies this
      ensures Valid() && Snapshot() == Step(old(Snapshot()), ReadDone(k, dataUrl))
    {
      preview := Some(dataUrl);
      pendingReads := pendingReads[..k] + pendingReads[k + 1..];
    }

    /** `removeFile`: note that nothing in flight is cancelled. */
    method RemoveFile()
      requires Valid()
      modifies this
      ensures Valid() && Snapshot() == Step(old(Snapshot()), Remove)
    {
      file := None;
      preview := None;
      progress := 0;
      isUploading := false;
    }

    /** `simulateUpload`: show the bar from 0 and start one more interval. */
    method SimulateUpload()
      requires Valid()
      modifies this
      ensures Valid() && Snapshot() == Step(old(Snapshot()), Simulate)
    {
      isUploading := true;
      progress := 0;
      liveIntervals := liveIntervals + 1;
    }

    /** The callback of one live interval: the functional update of `progress`. */
    method IntervalTick()
      requires Valid() && Enabled(Snapshot(), Tick)
      modifies this
      ensures Valid() && Snapshot() == Step(old(Snapshot()), Tick)
    {
      var prev := progress;
      if prev >= ProgressFull {
        liveIntervals := liveIntervals - 1;
        isUploading := false;
        progress := ProgressFull;
      } else {
        progress := prev + ProgressStep;
      }
    }
  }

  /**
   * A session as the user sees it: a PDF is refused, an image is accepted and
   * processed to completion, and a later removal leaves a preview-free empty widget.
   */
  method Session(pdf: File, png: File, url: string)
    requires !IsImage(pdf) && IsImage(png)
  {
    var w := new UploadForm();
    w.HandleFileChange([pdf]);
    assert w.file == None && w.alerts == 1;
    w.HandleDrop([png, pdf]);
    assert w.file == Some(png) && w.pendingReads == [png] && w.preview == None;
    w.PreviewLoaded(0, url);
    assert w.preview == Some(url) && w.pendingReads == [];
    w.SimulateUpload();
    var i := 0;
    while i < 20
      invariant 0 <= i <= 20 && w.Valid()
      invariant w.progress == ProgressStep * i && w.isUploading && w.liveIntervals == 1
      invariant w.file == Some(png)
    {
      w.IntervalTick();
      i := i + 1;
    }
    assert w.progress == ProgressFull && w.isUploading;
    w.IntervalTick();
    assert !w.isUploading && w.liveIntervals == 0;
    w.RemoveFile();
    assert w.file == None && w.preview == None && w.progress == 0;
  }
}
