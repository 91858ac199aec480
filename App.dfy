/**
 * The application shell: which image is being worked on, the gallery of
 * saved results (newest first), the current view, and the rule that picks
 * the screen to show from those three.
 */
module App {
  import opened Wrappers

  /** The view in which a selected image opens in the adjustment editor. */
  const EditorView := "editor"

  /** What the main area shows. */
  datatype Screen =
    | EditorScreen(imageUrl: string)
    | EffectsScreen(imageUrl: string)
    | UploadAndGallery(images: seq<string>)

  /** A selection counts only when it is a non-empty string (JavaScript truthiness). */
  predicate HasImage(selected: Option<string>) {
    selected.Some? && selected.value != ""
  }

  /** `renderContent` over the three pieces of state it reads. */
  function Render(selected: Option<string>, view: string, gallery: seq<string>): Screen {
    if HasImage(selected) then
      if view == EditorView then EditorScreen(selected.value) else EffectsScreen(selected.value)
    else UploadAndGallery(gallery)
  }

  /**
   * The editor is shown exactly for a selected image in the editor view,
   * the effects panel exactly for a selected image in any other view, and
   * the uploader with the gallery exactly when nothing is selected; the
   * screen always shows the selected image or the whole gallery.
   */
  lemma RenderCases(selected: Option<string>, view: string, gallery: seq<string>)
    ensures Render(selected, view, gallery).EditorScreen? <==> HasImage(selected) && view == EditorView
    ensures Render(selected, view, gallery).EffectsScreen? <==> HasImage(selected) && view != EditorView
    ensures Render(selected, view, gallery).UploadAndGallery? <==> !HasImage(selected)
    ensures HasImage(selected) ==> Render(selected, view, gallery).imageUrl == selected.value
    ensures !HasImage(selected) ==> Render(selected, view, gallery).images == gallery
  {
  }

  /** The gallery after one save: the new image first, then the old ones in their order. */
  function Prepend(gallery: seq<string>, url: string): (r: seq<string>)
    ensures |r| == |gallery| + 1
    ensures r[0] == url && r[1..] == gallery
  {
    [url] + gallery
  }

  function Reversed(s: seq<string>): (r: seq<string>)
    ensures |r| == |s|
  {
    if s == [] then [] else Reversed(s[1..]) + [s[0]]
  }

  /** The gallery after saving each image of `urls` in turn. */
  function SaveAll(gallery: seq<string>, urls: seq<string>): seq<string>
    decreases |urls|
  {
    if urls == [] then gallery else SaveAll(Prepend(gallery, urls[0]), urls[1..])
  }

  /** Saving several images leaves them newest first, ahead of the older ones. */
  lemma {:induction false} SaveAllNewestFirst(gallery: seq<string>, urls: seq<string>)
    ensures SaveAll(gallery, urls) == Reversed(urls) + gallery
    decreases |urls|
  {
    if urls != [] {
      SaveAllNewestFirst(Prepend(gallery, urls[0]), urls[1..]);
      assert Reversed(urls) == Reversed(urls[1..]) + [urls[0]];
      assert Reversed(urls[1..]) + ([urls[0]] + gallery) == Reversed(urls[1..]) + [urls[0]] + gallery;
    }
  }

  class Session {
    var selectedImage: Option<string>
    /** The saved images, newest first. */
    var editedImages: seq<string>
    var currentView: string

    function RenderContent(): Screen
      reads this
    {
      Render(selectedImage, currentView, editedImages)
    }

    /** On first render nothing is selected, the gallery is empty and the view is the editor's. */
    constructor ()
      ensures selectedImage == None && editedImages == [] && currentView == EditorView
      ensures RenderContent() == UploadAndGallery([])
    {
      selectedImage := None;
      editedImages := [];
      currentView := EditorView;
    }

    /** The file reader has produced the chosen file's data URL. */
    method SelectImage(url: string)
      modifies this`selectedImage
      ensures selectedImage == Some(url)
      ensures url != "" ==> RenderContent() == (if currentView == EditorView then EditorScreen(url) else EffectsScreen(url))
    {
      selectedImage := Some(url);
    }

    /** `handleSaveEdit`: the result goes to the front of the gallery and the selection is dropped. */
    method HandleSaveEdit(url: string)
      modifies this`editedImages, this`selectedImage
      ensures editedImages == Prepend(old(editedImages), url)
      ensures selectedImage == None && currentView == old(currentView)
      ensures RenderContent() == UploadAndGallery([url] + old(editedImages))
    {
      editedImages := Prepend(editedImages, url);
      selectedImage := None;
    }

    /** `handleViewChange`: switching to a different view drops the selection. */
    method HandleViewChange(view: string)
      modifies this`currentView, this`selectedImage
      ensures currentView == view && editedImages == old(editedImages)
      ensures view != old(currentView) ==> selectedImage == None
      ensures view == old(currentView) ==> selectedImage == old(selectedImage)
    {
      var previous := currentView;
      currentView := view;
      if view != previous {
        selectedImage := None;
      }
    }

    /** The cancel callback of either screen: back to the uploader and gallery. */
    method HandleCancel()
      modifies this`selectedImage
      ensures selectedImage == None
      ensures editedImages == old(editedImages) && currentView == old(currentView)
      ensures RenderContent() == UploadAndGallery(editedImages)
    {
      selectedImage := None;
    }
  }
}
