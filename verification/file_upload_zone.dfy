/**
 * The upload zone: it checks a chosen or dropped file's type and size before handing it on,
 * considers only the first file of a selection, and tracks whether a drag hovers over it.
 */
module FileUploadZone {
  import opened Wrappers

  /** A chosen file, as far as the checks look at it: its MIME type and its size in bytes. */
  datatype File = File(mimeType: string, size: nat)

  /** The outcome of the checks; each rejection has its own error message. */
  datatype Verdict = Accepted | InvalidType | TooLarge

  /** The MIME types the zone accepts. */
  const ValidTypes: seq<string> := ["image/png", "image/jpeg", "image/jpg", "image/heic"]

  /** The largest accepted file: 10 MiB. */
  const MaxSize: nat := 10 * 1024 * 1024

  /**
   * validateFile. A file is accepted exactly when its type is one of the four image types and
   * it is at most 10 MiB. The type is looked at first, so a file failing both checks is
   * reported as having the wrong type.
   */
  function ValidateFile(file: File): (v: Verdict)
    ensures v == Accepted <==> file.mimeType in ValidTypes && file.size <= MaxSize
    ensures v == InvalidType <==> file.mimeType !in ValidTypes
    ensures v == TooLarge <==> file.mimeType in ValidTypes && file.size > MaxSize
  {
    if file.mimeType !in ValidTypes then InvalidType
    else if file.size > MaxSize then TooLarge
    else Accepted
  }

  /** Exactly 10 485 760 bytes is accepted; one byte more is too large. */
  lemma SizeLimitIsInclusive(mimeType: string)
    requires mimeType in ValidTypes
    ensures ValidateFile(File(mimeType, 10485760)) == Accepted
    ensures ValidateFile(File(mimeType, 10485761)) == TooLarge
  {
  }

  /** What a selection leads to: nothing, a rejection with its message, or a file handed on. */
  datatype Outcome = NoFile | Rejected(reason: Verdict) | Selected(file: File)

  /**
   * handleFileSelect. The file is handed on to the page exactly when it passes validateFile,
   * and then unchanged; otherwise the reason is reported.
   */
  function HandleFileSelect(file: File): (o: Outcome)
    ensures o.Selected? <==> ValidateFile(file) == Accepted
    ensures o.Selected? ==> o.file == file
    ensures o.Rejected? ==> o.reason == ValidateFile(file) && o.reason != Accepted
    ensures !o.NoFile?
  {
    var verdict := ValidateFile(file);
    if verdict == Accepted then Selected(file) else Rejected(verdict)
  }

  /**
   * The first-file rule of handleDrop and handleFileInputChange: an empty list does nothing,
   * otherwise only its first file is checked and perhaps handed on.
   */
  function FirstFile(files: seq<File>): (o: Outcome)
    ensures o.NoFile? <==> |files| == 0
    ensures o.Selected? ==> o.file == files[0] && ValidateFile(o.file) == Accepted
    ensures |files| > 0 && ValidateFile(files[0]) == Accepted ==> o.Selected?
    ensures o.Rejected? ==> |files| > 0 && o.reason == ValidateFile(files[0]) && o.reason != Accepted
    ensures |files| > 0 ==> o == HandleFileSelect(files[0])
  {
    if |files| > 0 then HandleFileSelect(files[0]) else NoFile
  }

  /** Files after the first never matter: two lists with the same first file end alike. */
  lemma OnlyFirstFileMatters(files1: seq<File>, files2: seq<File>)
    requires |files1| > 0 && |files2| > 0 && files1[0] == files2[0]
    ensures FirstFile(files1) == FirstFile(files2)
  {
  }

  /** A file is never handed on unless it passed the checks, wherever in the list it sits. */
  lemma RejectedFilesNeverSelected(files: seq<File>, i: int)
    requires 0 <= i < |files| && ValidateFile(files[i]) != Accepted
    ensures FirstFile(files) != Selected(files[i])
  {
  }

  /** The file input's list, which is null when nothing was chosen. */
  function InputFiles(files: Option<seq<File>>): (o: Outcome)
    ensures files.None? ==> o.NoFile?
    ensures files.Some? ==> o == FirstFile(files.value)
  {
    match files
    case None => NoFile
    case Some(list) => FirstFile(list)
  }

  /** The drop target and its hover highlight. */
  class UploadZone {
    var isDragOver: bool

    constructor ()
      ensures !isDragOver
    {
      isDragOver := false;
    }

    /** handleDragOver: a drag over the zone turns the highlight on. */
    method DragOver()
      modifies this
      ensures isDragOver
    {
      isDragOver := true;
    }

    /** handleDragLeave: the drag leaving the zone turns it off. */
    method DragLeave()
      modifies this
      ensures !isDragOver
    {
      isDragOver := false;
    }

    /** handleDrop: turns the highlight off and applies the first-file rule to the dropped files. */
    method Drop(files: seq<File>) returns (o: Outcome)
      modifies this
      ensures !isDragOver
      ensures o.NoFile? <==> |files| == 0
      ensures o.Selected? ==> o.file == files[0] && ValidateFile(o.file) == Accepted
      ensures o == FirstFile(files)
    {
      isDragOver := false;
      if |files| > 0 {
        o := HandleFileSelect(files[0]);
      } else {
        o := NoFile;
      }
    }

    /** handleFileInputChange: the first-file rule on the input's list; the highlight is left alone. */
    method InputChange(files: Option<seq<File>>) returns (o: Outcome)
      ensures o == InputFiles(files)
      ensures o.Selected? ==> files.Some? && o.file == files.value[0] && ValidateFile(o.file) == Accepted
    {
      if files.Some? && |files.value| > 0 {
        o := HandleFileSelect(files.value[0]);
      } else {
        o := NoFile;
      }
    }
  }
}
