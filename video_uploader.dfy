/**
 * The upload widget of src/components/VideoUploader.tsx: its three state
 * fields, the drag handlers, the file validator and `clearVideo`. Object
 * URLs are parameters; the revoked ones are recorded in a list.
 */
module VideoUploader {
  import opened Types

  /** 100 MB, the largest accepted file size in bytes. */
  const MaxVideoBytes: nat := 100 * 1024 * 1024

  const VideoPrefix: string := "video/"

  datatype UploadError = NotAVideo | TooLarge

  /** The checks of `handleFileChange`, in their order: the type first, then the size. */
  function Validate(file: VideoFile): Option<UploadError> {
    if !(VideoPrefix <= file.mimeType) then Some(NotAVideo)
    else if file.size > MaxVideoBytes then Some(TooLarge)
    else None
  }

  /**
   * A file is accepted exactly when its type starts with `video/` and it
   * has at most 104857600 bytes; a non-video file is reported as such
   * whatever its size.
   */
  lemma ValidateSpec(file: VideoFile)
    ensures Validate(file).None? <==> VideoPrefix <= file.mimeType && file.size <= 104857600
    ensures !(VideoPrefix <= file.mimeType) ==> Validate(file) == Some(NotAVideo)
    ensures Validate(file) == Some(TooLarge) <==> VideoPrefix <= file.mimeType && file.size > 104857600
  {
  }

  /** The boundary: exactly 100 MB passes, one byte more does not. */
  lemma SizeBoundary(name: string)
    ensures Validate(VideoFile(name, "video/mp4", 104857600)) == None
    ensures Validate(VideoFile(name, "video/mp4", 104857601)) == Some(TooLarge)
    ensures Validate(VideoFile(name, "image/png", 104857601)) == Some(NotAVideo)
  {
    assert VideoPrefix <= "video/mp4";
    assert !(VideoPrefix <= "image/png") by {
      assert "image/png"[0] != VideoPrefix[0];
    }
  }

  class Uploader {
    var dragActive: bool
    var videoFile: Option<VideoFile>
    var videoPreview: Option<string>
    /** The object URLs passed to `URL.revokeObjectURL`, oldest first. */
    var revokedUrls: seq<string>

    constructor ()
      ensures !dragActive && videoFile == None && videoPreview == None && revokedUrls == []
    {
      dragActive := false;
      videoFile := None;
      videoPreview := None;
      revokedUrls := [];
    }

    /** `handleDrag`: enter and over activate, leave deactivates, other types change nothing. */
    method HandleDrag(eventType: string)
      modifies this
      ensures eventType == "dragenter" || eventType == "dragover" ==> dragActive
      ensures eventType == "dragleave" ==> !dragActive
      ensures eventType != "dragenter" && eventType != "dragover" && eventType != "dragleave" ==>
        dragActive == old(dragActive)
      ensures videoFile == old(videoFile) && videoPreview == old(videoPreview) && revokedUrls == old(revokedUrls)
    {
      if eventType == "dragenter" || eventType == "dragover" {
        dragActive := true;
      } else if eventType == "dragleave" {
        dragActive := false;
      }
    }

    /**
     * `handleFileChange`: a rejected file changes nothing and notifies no
     * one; an accepted one becomes the selected file with a fresh preview
     * URL and is handed to `onVideoSelect` (the `selected` result).
     */
    method HandleFileChange(file: VideoFile, previewUrl: string)
      returns (selected: Option<VideoFile>, error: Option<UploadError>)
      modifies this
      ensures error == Validate(file)
      ensures error.Some? ==>
        selected == None && videoFile == old(videoFile) && videoPreview == old(videoPreview)
      ensures error.None? ==>
        selected == Some(file) && videoFile == Some(file) && videoPreview == Some(previewUrl)
      ensures dragActive == old(dragActive) && revokedUrls == old(revokedUrls)
    {
      error := Validate(file);
      if error.Some? {
        return None, error;
      }
      videoFile := Some(file);
      videoPreview := Some(previewUrl);
      selected := Some(file);
    }

    /** `handleDrop`: end the drag and consider only the first dropped file, if any. */
    method HandleDrop(files: seq<VideoFile>, previewUrl: string)
      returns (selected: Option<VideoFile>, error: Option<UploadError>)
      modifies this
      ensures !dragActive
      ensures files == [] ==>
        selected == None && error == None && videoFile == old(videoFile) && videoPreview == old(videoPreview)
      ensures files != [] ==> error == Validate(files[0])
      ensures files != [] && error.None? ==>
        selected == Some(files[0]) && videoFile == Some(files[0]) && videoPreview == Some(previewUrl)
      ensures files != [] && error.Some? ==>
        selected == None && videoFile == old(videoFile) && videoPreview == old(videoPreview)
      ensures revokedUrls == old(revokedUrls)
    {
      dragActive := false;
      selected, error := None, None;
      if files != [] {
        selected, error := HandleFileChange(files[0], previewUrl);
      }
    }

    /** `clearVideo`: revoke the preview URL if there is one, then forget file and preview. */
    method ClearVideo()
      modifies this
      ensures videoFile == None && videoPreview == None
      ensures revokedUrls == old(revokedUrls) + (if old(videoPreview).Some? then [old(videoPreview).value] else [])
      ensures dragActive == old(dragActive)
    {
      if videoPreview.Some? {
        revokedUrls := revokedUrls + [videoPreview.value];
      }
      videoFile := None;
      videoPreview := None;
    }
  }
}
