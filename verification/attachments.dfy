/**
 * Collection of the files of the attachments directory as error-report
 * attachments: one attachment per enumerated file, in enumeration order,
 * text or binary by the file's extension, and a diagnostic text in place
 * of any file that cannot be read.
 */
module Attachments {
  import opened Wrappers
  import opened Text
  import opened Logging
  import opened AppCenter
  import opened MimeTypes

  /** What opening a file and copying it to memory yields: all of its bytes, or the exception raised. */
  datatype ReadResult = Content(bytes: seq<byte>) | ReadFailure(error: Exception)

  /** IFileInfo: Name, FullName, Extension, and the outcome of reading it whole. */
  datatype FileInfo = FileInfo(name: string, fullName: string, extension: string, content: ReadResult)

  /**
   * IDirectoryInfo: whether it exists (Exists), and the files EnumerateFiles returns
   * for a search pattern across all subdirectories (the operating system's
   * glob matching is part of this function, not of the model).
   */
  datatype DirectoryInfo = DirectoryInfo(isPresent: bool, enumerateFiles: string -> seq<FileInfo>)

  /** The collector's surroundings: the directory factory and Encoding.UTF8.GetString. */
  datatype Environment = Environment(fromPath: string -> DirectoryInfo, utf8: seq<byte> -> string)

  /** The text attached in place of a file that could not be read. */
  function DiagnosticText(file: FileInfo, e: Exception): (text: string)
    ensures Contains(text, file.fullName) && Contains(text, Describe(e))
  {
    var head := "GetErrorAttachmentWithFromLogFile for file '";
    var middle := "' failed with exception: ";
    ContainsMiddle(head, file.fullName, middle + Describe(e));
    assert head + file.fullName + middle + Describe(e) == head + file.fullName + (middle + Describe(e));
    ContainsMiddle(head + file.fullName + middle, Describe(e), "");
    assert head + file.fullName + middle + Describe(e) + "" == head + file.fullName + middle + Describe(e);
    head + file.fullName + middle + Describe(e)
  }

  /**
   * The attachment for one file. It always carries the file's name; it is
   * text exactly when the file could not be read or its extension maps to a
   * text type; a text attachment of a readable file holds the decoding of
   * all its bytes, a binary one holds those bytes and the mapped MIME type.
   */
  function AttachmentFor(file: FileInfo, utf8: seq<byte> -> string): (a: Attachment)
    ensures a.FileName() == file.name
    ensures a.TextAttachment? <==> file.content.ReadFailure? || GetMimeTypeMapping(file.extension).isText
    ensures file.content.ReadFailure? ==>
      Contains(a.text, file.fullName) && Contains(a.text, Describe(file.content.error))
    ensures file.content.Content? && a.TextAttachment? ==> a.text == utf8(file.content.bytes)
    ensures a.BinaryAttachment? ==>
      a.data == file.content.bytes && a.contentType == GetMimeTypeMapping(file.extension).mimeType
  {
    match file.content
    case ReadFailure(e) => TextAttachment(DiagnosticText(file, e), file.name)
    case Content(bytes) =>
      var mapping := GetMimeTypeMapping(file.extension);
      if mapping.isText then TextAttachment(utf8(bytes), file.name)
      else BinaryAttachment(bytes, file.name, mapping.mimeType)
  }

  /** A blank search pattern means all files. */
  function EffectivePattern(pattern: string): (p: string)
    ensures !IsNullOrWhiteSpace(p)
    ensures !IsNullOrWhiteSpace(pattern) ==> p == pattern
    ensures IsNullOrWhiteSpace(pattern) ==> p == "*"
  {
    assert !IsWhiteSpace("*"[0]);
    if IsNullOrWhiteSpace(pattern) then "*" else pattern
  }

  /** The pattern the directory is searched with, or None when no search takes place. */
  function SearchPattern(env: Environment, directoryPath: string, filePattern: string): Option<string>
  {
    if IsNullOrEmpty(directoryPath) || !env.fromPath(directoryPath).isPresent then None
    else Some(EffectivePattern(filePattern))
  }

  /** The files to attach, in enumeration order. */
  function FilesToAttach(env: Environment, directoryPath: string, filePattern: string): seq<FileInfo>
  {
    match SearchPattern(env, directoryPath, filePattern)
    case None => []
    case Some(p) => env.fromPath(directoryPath).enumerateFiles(p)
  }

  /** The attachments made of the files to attach, one per file, in the same order. */
  function ErrorAttachments(env: Environment, directoryPath: string, filePattern: string): (r: seq<Attachment>)
    ensures var files := FilesToAttach(env, directoryPath, filePattern);
      |r| == |files| && forall i :: 0 <= i < |files| ==> r[i] == AttachmentFor(files[i], env.utf8)
  {
    var files := FilesToAttach(env, directoryPath, filePattern);
    seq(|files|, i requires 0 <= i < |files| => AttachmentFor(files[i], env.utf8))
  }

  /**
   * GetErrorAttachmentWithFromLogFiles. Returns the attachments, the pattern
   * EnumerateFiles was called with (None when it was not called), and
   * whether LogManager.Flush was called before the files were read.
   */
  method GetErrorAttachmentsFromLogFiles(env: Environment, directoryPath: string, filePattern: string, flushTimeout: Option<int>)
    returns (attachments: seq<Attachment>, searched: Option<string>, flushed: bool)
    ensures IsNullOrEmpty(directoryPath) || !env.fromPath(directoryPath).isPresent ==>
      searched == None && attachments == [] && !flushed
    ensures !IsNullOrEmpty(directoryPath) && env.fromPath(directoryPath).isPresent ==>
      searched == Some(EffectivePattern(filePattern))
    ensures var files := FilesToAttach(env, directoryPath, filePattern);
      && |attachments| == |files|
      && (forall i :: 0 <= i < |files| ==> attachments[i] == AttachmentFor(files[i], env.utf8))
      && (flushed <==> files != [] && flushTimeout.Some? && flushTimeout.value > 0)
    ensures attachments == ErrorAttachments(env, directoryPath, filePattern)
  {
    attachments, searched, flushed := [], None, false;
    if IsNullOrEmpty(directoryPath) {
      return;
    }
    var directory := env.fromPath(directoryPath);
    if !directory.isPresent {
      return;
    }
    var pattern := filePattern;
    if IsNullOrWhiteSpace(pattern) {
      pattern := "*";
    }
    searched := Some(pattern);
    var files := directory.enumerateFiles(pattern);
    assert files == FilesToAttach(env, directoryPath, filePattern);
    if files != [] && flushTimeout.Some? && flushTimeout.value > 0 {
      flushed := true;
    }
    attachments := AttachAll(files, env.utf8);
  }

  /** The loop over the enumerated files: one attachment per file, in the same order. */
  method AttachAll(files: seq<FileInfo>, utf8: seq<byte> -> string) returns (attachments: seq<Attachment>)
    ensures |attachments| == |files|
    ensures forall i :: 0 <= i < |files| ==> attachments[i] == AttachmentFor(files[i], utf8)
  {
    attachments := [];
    for i := 0 to |files|
      invariant |attachments| == i
      invariant forall k :: 0 <= k < i ==> attachments[k] == AttachmentFor(files[k], utf8)
    {
      attachments := attachments + [AttachmentFor(files[i], utf8)];
    }
  }

  /** .txt and .log files become text attachments holding the decoded file, under the file's name. */
  lemma TextFilesAreDecoded(file: FileInfo, utf8: seq<byte> -> string)
    requires file.extension == ".txt" || file.extension == ".log"
    requires file.content.Content?
    ensures AttachmentFor(file, utf8) == TextAttachment(utf8(file.content.bytes), file.name)
  {
    KnownExtensions();
  }

  /** Archives become binary attachments holding the file's bytes under their fixed MIME type. */
  lemma ArchivesAreBinary(file: FileInfo, utf8: seq<byte> -> string)
    requires file.content.Content?
    ensures file.extension == ".zip" ==>
      AttachmentFor(file, utf8) == BinaryAttachment(file.content.bytes, file.name, "application/zip")
    ensures file.extension == ".gz" ==>
      AttachmentFor(file, utf8) == BinaryAttachment(file.content.bytes, file.name, "application/x-zip-compressed")
    ensures file.extension == ".rar" ==>
      AttachmentFor(file, utf8) == BinaryAttachment(file.content.bytes, file.name, "application/x-rar-compressed")
  {
    KnownExtensions();
  }

  /** Any extension outside the table gives a binary attachment of type application/octet-stream. */
  lemma UnlistedFilesAreOctetStream(file: FileInfo, utf8: seq<byte> -> string)
    requires file.content.Content?
    requires forall i :: 0 <= i < |DefaultMimeTypeMappings| ==> DefaultMimeTypeMappings[i].fileExtension != file.extension
    ensures AttachmentFor(file, utf8) == BinaryAttachment(file.content.bytes, file.name, "application/octet-stream")
  {
  }
}
