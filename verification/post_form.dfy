/** components/posts/PostForm.tsx: the media attached to a new post and the
    rule that enables its submit button.

    The form keeps three parallel lists: the uploaded media URLs, their
    types as the server reports them, and the files they came from. A
    selection of files is checked against the media limits, uploaded as a
    whole, and appended; any attachment can be removed again. The upload's
    answer is a parameter. */
module PostForm {
  import opened Js

  /** A selected file: its name and its MIME type (`file.type`). */
  datatype File = File(name: string, mimeType: string)

  predicate IsImage(f: File) {
    StartsWith(f.mimeType, "image/")
  }

  predicate IsVideo(f: File) {
    StartsWith(f.mimeType, "video/")
  }

  const MaxImages := 3
  const MaxVideos := 1
  const VideoType := "video"

  /** `files.filter(file => file.type.startsWith('image/'))` */
  function ImageFiles(files: seq<File>): (r: seq<File>)
    ensures |r| <= |files|
    ensures forall f :: f in r <==> f in files && IsImage(f)
  {
    if files == [] then []
    else (if IsImage(files[0]) then [files[0]] else []) + ImageFiles(files[1..])
  }

  /** `files.filter(file => file.type.startsWith('video/'))` */
  function VideoFiles(files: seq<File>): (r: seq<File>)
    ensures |r| <= |files|
    ensures forall f :: f in r <==> f in files && IsVideo(f)
  {
    if files == [] then []
    else (if IsVideo(files[0]) then [files[0]] else []) + VideoFiles(files[1..])
  }

  /** Why a selection is refused, in the order the checks run. */
  datatype SelectionError = TooManyImages | TooManyVideos | VideoAlreadyAttached

  /** The checks of `handleFileSelect` before anything is uploaded. */
  function CheckSelection(files: seq<File>, mediaTypes: seq<string>): (r: Option<SelectionError>)
    ensures r == None <==>
      |ImageFiles(files)| <= MaxImages && |VideoFiles(files)| <= MaxVideos &&
      (VideoType in mediaTypes ==> VideoFiles(files) == [])
    ensures r == Some(TooManyImages) <==> |ImageFiles(files)| > MaxImages
    ensures r == Some(VideoAlreadyAttached) ==> VideoType in mediaTypes && |VideoFiles(files)| == 1
  {
    if |ImageFiles(files)| > MaxImages then Some(TooManyImages)
    else if |VideoFiles(files)| > MaxVideos then Some(TooManyVideos)
    else if VideoType in mediaTypes && |VideoFiles(files)| > 0 then Some(VideoAlreadyAttached)
    else None
  }

  /** The limit on images counts the files of one selection only: three
      images are accepted whatever is already attached. */
  lemma ImageLimitIsPerSelection(files: seq<File>, mediaTypes: seq<string>)
    requires |files| == MaxImages && forall k | 0 <= k < |files| :: IsImage(files[k])
    ensures CheckSelection(files, mediaTypes) == None
  {
    ImagesAreNotVideos(files);
  }

  /** A selection of images has no video in it. */
  lemma {:induction false} ImagesAreNotVideos(files: seq<File>)
    requires forall k | 0 <= k < |files| :: IsImage(files[k])
    ensures VideoFiles(files) == []
  {
    if files != [] {
      assert files[0].mimeType[..6] == "image/";
      assert files[0].mimeType[0] == 'i' && "video/"[0] == 'v';
      ImagesAreNotVideos(files[1..]);
    }
  }

  /** What the upload endpoint answers. */
  datatype UploadOutcome = Uploaded(urls: seq<string>, types: seq<string>) | UploadFailed

  /** An answer that lists one URL and one type per file, each type saying
      whether its file is a video. */
  predicate Mirrors(upload: UploadOutcome, files: seq<File>) {
    && upload.Uploaded?
    && |upload.urls| == |files| && |upload.types| == |files|
    && forall k | 0 <= k < |files| :: (upload.types[k] == VideoType <==> IsVideo(files[k]))
  }

  /** The number of videos among some types equals the number of video
      files when the types mirror the files. */
  lemma {:induction false} VideoCount(types: seq<string>, files: seq<File>)
    requires |types| == |files|
    requires forall k | 0 <= k < |files| :: (types[k] == VideoType <==> IsVideo(files[k]))
    ensures multiset(types)[VideoType] == |VideoFiles(files)|
  {
    if files != [] {
      assert types == [types[0]] + types[1..];
      VideoCount(types[1..], files[1..]);
    }
  }

  /** `filter((_, i) => i !== index)`: everything but position `index`,
      which may lie outside the list. */
  function WithoutIndex<T>(s: seq<T>, index: int): (r: seq<T>)
    ensures |r| == if 0 <= index < |s| then |s| - 1 else |s|
  {
    if s == [] then []
    else WithoutIndex(s[..|s| - 1], index) + (if index == |s| - 1 then [] else [s[|s| - 1]])
  }

  /** Cutting a list with one element appended, before its last element. */
  lemma SlicesOfAppended<T>(init: seq<T>, x: T, i: nat)
    requires i < |init|
    ensures (init + [x])[..i] + (init + [x])[i + 1..] == init[..i] + init[i + 1..] + [x]
  {
    assert (init + [x])[..i] == init[..i];
    assert (init + [x])[i + 1..] == init[i + 1..] + [x];
  }

  /** Removing a position keeps the others in order: what comes before it,
      then what comes after it; an index outside the list removes nothing. */
  lemma {:induction false} WithoutIndexIsSplice<T>(s: seq<T>, index: int)
    ensures 0 <= index < |s| ==> WithoutIndex(s, index) == s[..index] + s[index + 1..]
    ensures !(0 <= index < |s|) ==> WithoutIndex(s, index) == s
  {
    if s != [] {
      var init := s[..|s| - 1];
      WithoutIndexIsSplice(init, index);
      if index == |s| - 1 {
        assert init == s[..index] + s[index + 1..];
      } else if 0 <= index < |s| - 1 {
        assert s == init + [s[|s| - 1]];
        SlicesOfAppended(init, s[|s| - 1], index);
      } else {
        assert init + [s[|s| - 1]] == s;
      }
    }
  }

  /** The three parallel lists of attached media. */
  class MediaState {
    var mediaUrls: seq<string>
    var mediaTypes: seq<string>
    var mediaFiles: seq<File>

    /** One entry per attachment in each list. */
    ghost predicate Aligned()
      reads this
    {
      |mediaUrls| == |mediaTypes| == |mediaFiles|
    }

    /** At most one attached video. */
    ghost predicate OneVideo()
      reads this
    {
      multiset(mediaTypes)[VideoType] <= 1
    }

    constructor ()
      ensures mediaUrls == [] && mediaTypes == [] && mediaFiles == []
      ensures Aligned() && OneVideo()
    {
      mediaUrls, mediaTypes, mediaFiles := [], [], [];
    }

    /** `handleFileSelect(event)` for the selected `files` (an empty list
        when nothing is selected), where `upload` is what the upload would
        answer. A refused selection and a failed upload change nothing; a
        successful one appends the answer's URLs and types and the files. */
    method HandleFileSelect(files: seq<File>, upload: UploadOutcome) returns (refused: Option<SelectionError>)
      modifies this
      ensures refused == CheckSelection(files, old(mediaTypes))
      ensures refused.Some? || upload.UploadFailed? ==>
        mediaUrls == old(mediaUrls) && mediaTypes == old(mediaTypes) && mediaFiles == old(mediaFiles)
      ensures refused.None? && upload.Uploaded? ==>
        && mediaUrls == old(mediaUrls) + upload.urls
        && mediaTypes == old(mediaTypes) + upload.types
        && mediaFiles == old(mediaFiles) + files
      ensures old(Aligned()) && (refused.Some? || Mirrors(upload, files)) ==> Aligned()
      ensures old(OneVideo()) && (refused.Some? || upload.UploadFailed? || Mirrors(upload, files)) ==> OneVideo()
    {
      refused := CheckSelection(files, mediaTypes);
      if refused.Some? {
        return;
      }
      match upload
      case UploadFailed =>
      case Uploaded(urls, types) =>
        if Mirrors(upload, files) {
          VideoCount(types, files);
          assert multiset(mediaTypes + types) == multiset(mediaTypes) + multiset(types);
          if VideoType in mediaTypes {
            assert multiset(types)[VideoType] == 0;
          } else {
            assert multiset(mediaTypes)[VideoType] == 0;
          }
        }
        mediaUrls := mediaUrls + urls;
        mediaTypes := mediaTypes + types;
        mediaFiles := mediaFiles + files;
    }

    /** `removeMedia(index)`: the same position goes from all three lists. */
    method RemoveMedia(index: int)
      modifies this
      ensures mediaUrls == WithoutIndex(old(mediaUrls), index)
      ensures mediaTypes == WithoutIndex(old(mediaTypes), index)
      ensures mediaFiles == WithoutIndex(old(mediaFiles), index)
      ensures old(Aligned()) ==> Aligned()
      ensures old(OneVideo()) ==> OneVideo()
    {
      WithoutIndexIsSplice(mediaTypes, index);
      if 0 <= index < |mediaTypes| {
        assert mediaTypes == mediaTypes[..index] + [mediaTypes[index]] + mediaTypes[index + 1..];
      }
      mediaUrls := WithoutIndex(mediaUrls, index);
      mediaTypes := WithoutIndex(mediaTypes, index);
      mediaFiles := WithoutIndex(mediaFiles, index);
    }
  }

  /** The submit button: disabled while the content trims to nothing or a
      post is being created. */
  function SubmitDisabled(content: string, isCreating: bool): (r: bool)
    ensures isCreating ==> r
    ensures !isCreating ==> (r <==> IsBlank(content))
  {
    TrimEmptyIffBlank(content);
    Trim(content) == [] || isCreating
  }

  /** When no post is being created, submit is enabled exactly when the
      content has a character other than whitespace. */
  lemma SubmitEnabledIffContent(content: string)
    ensures !SubmitDisabled(content, false) <==> exists i | 0 <= i < |content| :: !IsJsWhitespace(content[i])
  {
    TrimEmptyIffBlank(content);
  }
}
