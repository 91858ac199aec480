/**
 * The upload area: a file is handed on only when its MIME type says it is
 * an image, only the first file of a drop or a picker selection is looked
 * at, and a flag follows the drag events to highlight the drop zone.
 */
module ImageUploader {
  import opened Wrappers
  import opened Strings

  /** A chosen file, as far as the uploader looks at it. */
  datatype File = File(name: string, mimeType: string)

  /** The message shown when the file is refused. */
  const NotAnImage := "Please upload an image file"

  predicate IsImage(f: File) {
    StartsWith(f.mimeType, "image/")
  }

  /** The file a drop or a selection hands on, if any. */
  function Admitted(files: seq<File>): (r: Option<File>)
    ensures r.Some? <==> files != [] && IsImage(files[0])
    ensures r.Some? ==> r.value == files[0]
  {
    if files != [] && IsImage(files[0]) then Some(files[0]) else None
  }

  /** Only the first file matters: what follows it never changes the outcome. */
  lemma AdmittedFirstOnly(f: File, rest: seq<File>, other: seq<File>)
    ensures Admitted([f] + rest) == Admitted([f] + other)
    ensures Admitted([f] + rest) == (if IsImage(f) then Some(f) else None)
  {
    assert ([f] + rest)[0] == f && ([f] + other)[0] == f;
  }

  /** The highlight after one drag event of the given type. */
  function AfterDrag(dragging: bool, eventType: string): (r: bool)
    ensures eventType == "dragenter" || eventType == "dragover" ==> r
    ensures eventType == "dragleave" ==> !r
    ensures eventType != "dragenter" && eventType != "dragover" && eventType != "dragleave" ==> r == dragging
  {
    if eventType == "dragenter" || eventType == "dragover" then true
    else if eventType == "dragleave" then false
    else dragging
  }

  predicate IsDragEvent(eventType: string) {
    eventType == "dragenter" || eventType == "dragover" || eventType == "dragleave"
  }

  /** The highlight after a run of drag events. */
  function AfterDrags(dragging: bool, events: seq<string>): bool
    decreases |events|
  {
    if events == [] then dragging else AfterDrags(AfterDrag(dragging, events[0]), events[1..])
  }

  predicate NoDragEvents(events: seq<string>) {
    forall i :: 0 <= i < |events| ==> !IsDragEvent(events[i])
  }

  /** Events other than enter, over and leave leave the highlight as it was. */
  lemma {:induction false} AfterNonDrags(dragging: bool, events: seq<string>)
    requires NoDragEvents(events)
    ensures AfterDrags(dragging, events) == dragging
    decreases |events|
  {
    if events != [] {
      assert !IsDragEvent(events[0]);
      assert NoDragEvents(events[1..]) by {
        forall i | 0 <= i < |events[1..]| ensures !IsDragEvent(events[1..][i]) {
          assert events[1..][i] == events[i + 1];
        }
      }
      AfterNonDrags(dragging, events[1..]);
    }
  }

  /** Two runs of events in a row act as the first followed by the second. */
  lemma {:induction false} AfterDragsConcat(dragging: bool, a: seq<string>, b: seq<string>)
    ensures AfterDrags(dragging, a + b) == AfterDrags(AfterDrags(dragging, a), b)
    decreases |a|
  {
    if a == [] {
      assert a + b == b;
    } else {
      assert (a + b)[0] == a[0] && (a + b)[1..] == a[1..] + b;
      AfterDragsConcat(AfterDrag(dragging, a[0]), a[1..], b);
    }
  }

  /**
   * After a run of drag events the drop zone is highlighted exactly when
   * the last enter, over or leave event among them was an enter or an over.
   */
  lemma LastDragEventDecides(dragging: bool, before: seq<string>, e: string, after: seq<string>)
    requires IsDragEvent(e) && NoDragEvents(after)
    ensures AfterDrags(dragging, before + [e] + after) == (e != "dragleave")
  {
    AfterDragsConcat(dragging, before + [e], after);
    AfterDragsConcat(dragging, before, [e]);
    var d := AfterDrags(dragging, before);
    assert AfterDrags(d, [e]) == AfterDrags(AfterDrag(d, e), []);
    AfterNonDrags(AfterDrag(d, e), after);
  }

  class Uploader {
    /** Whether a drag is over the drop zone. */
    var isDragging: bool
    /** The files handed to the selection callback, in order. */
    var handedOn: seq<File>
    /** The alerts shown, in order. */
    var alerts: seq<string>

    constructor ()
      ensures !isDragging && handedOn == [] && alerts == []
    {
      isDragging := false;
      handedOn := [];
      alerts := [];
    }

    /** `validateAndProcessFile`: an image is handed on unchanged, anything else is refused with an alert. */
    method ValidateAndProcessFile(f: File)
      modifies this`handedOn, this`alerts
      ensures IsImage(f) ==> handedOn == old(handedOn) + [f] && alerts == old(alerts)
      ensures !IsImage(f) ==> handedOn == old(handedOn) && alerts == old(alerts) + [NotAnImage]
    {
      if !StartsWith(f.mimeType, "image/") {
        alerts := alerts + [NotAnImage];
        return;
      }
      handedOn := handedOn + [f];
    }

    /** `handleDrag`, bound to the enter, leave and over events. */
    method HandleDrag(eventType: string)
      modifies this`isDragging
      ensures isDragging == AfterDrag(old(isDragging), eventType)
    {
      if eventType == "dragenter" || eventType == "dragover" {
        isDragging := true;
      } else if eventType == "dragleave" {
        isDragging := false;
      }
    }

    /** A drop always ends the highlight; only the first dropped file is validated. */
    method HandleDrop(files: seq<File>)
      modifies this
      ensures !isDragging
      ensures handedOn == old(handedOn) + (match Admitted(files) case Some(f) => [f] case None => [])
      ensures files == [] ==> alerts == old(alerts)
      ensures files != [] ==> alerts == old(alerts) + (if IsImage(files[0]) then [] else [NotAnImage])
    {
      isDragging := false;
      if files != [] {
        ValidateAndProcessFile(files[0]);
      }
    }

    /** The file picker: only the first chosen file is validated. */
    method HandleFileSelect(files: seq<File>)
      modifies this`handedOn, this`alerts
      ensures handedOn == old(handedOn) + (match Admitted(files) case Some(f) => [f] case None => [])
      ensures files == [] ==> alerts == old(alerts)
      ensures files != [] ==> alerts == old(alerts) + (if IsImage(files[0]) then [] else [NotAnImage])
    {
      if files != [] {
        ValidateAndProcessFile(files[0]);
      }
    }
  }
}
