/** The classification of attachment files by extension. */
module MimeTypes {
  import opened Wrappers

  /** One classification rule: the file extension it applies to, the MIME type it assigns, and whether the file is text. */
  datatype MimeTypeMapping = MimeTypeMapping(fileExtension: string, mimeType: string, isText: bool)

  /** The rule for every extension the table does not list. */
  const DefaultMimeTypeMapping := MimeTypeMapping("*", "application/octet-stream", false)

  /** The rules in the order they are tried. */
  const DefaultMimeTypeMappings: seq<MimeTypeMapping> := [
    MimeTypeMapping(".txt", "text/plain", true),
    MimeTypeMapping(".log", "text/plain", true),
    MimeTypeMapping(".zip", "application/zip", false),
    MimeTypeMapping(".gz", "application/x-zip-compressed", false),
    MimeTypeMapping(".rar", "application/x-rar-compressed", false)
  ]

  /** The index of the first rule for the extension (compared ordinally, case-sensitive), or None. */
  function FirstMatch(table: seq<MimeTypeMapping>, extension: string): (r: Option<nat>)
    ensures r.Some? ==> r.value < |table| && table[r.value].fileExtension == extension
    ensures r.Some? ==> forall j :: 0 <= j < r.value ==> table[j].fileExtension != extension
    ensures r.None? ==> forall j :: 0 <= j < |table| ==> table[j].fileExtension != extension
  {
    if table == [] then None
    else if table[0].fileExtension == extension then Some(0)
    else
      match FirstMatch(table[1..], extension)
      case Some(i) => Some(i + 1)
      case None => None
  }

  /** The rule for a file extension: the first table entry for it, or the default. */
  function GetMimeTypeMapping(extension: string): (m: MimeTypeMapping)
    ensures m in DefaultMimeTypeMappings || m == DefaultMimeTypeMapping
    ensures m != DefaultMimeTypeMapping <==> exists i :: 0 <= i < |DefaultMimeTypeMappings| && DefaultMimeTypeMappings[i].fileExtension == extension
    ensures m != DefaultMimeTypeMapping ==> m.fileExtension == extension
  {
    match FirstMatch(DefaultMimeTypeMappings, extension)
    case Some(i) => DefaultMimeTypeMappings[i]
    case None => DefaultMimeTypeMapping
  }

  /** No two rules share an extension, so the first match is the only match. */
  lemma TableExtensionsDistinct()
    ensures forall i, j :: 0 <= i < j < |DefaultMimeTypeMappings| ==>
      DefaultMimeTypeMappings[i].fileExtension != DefaultMimeTypeMappings[j].fileExtension
  {
  }

  /** Looking up the extension of any rule gives that rule back. */
  lemma {:induction false} EveryRuleIsReachable(k: nat)
    requires k < |DefaultMimeTypeMappings|
    ensures GetMimeTypeMapping(DefaultMimeTypeMappings[k].fileExtension) == DefaultMimeTypeMappings[k]
  {
    TableExtensionsDistinct();
    var r := FirstMatch(DefaultMimeTypeMappings, DefaultMimeTypeMappings[k].fileExtension);
    assert r.Some?;
    assert r.value == k;
  }

  /** Exactly .txt and .log files are read as text. */
  lemma TextExactlyForTxtAndLog(extension: string)
    ensures GetMimeTypeMapping(extension).isText <==> extension == ".txt" || extension == ".log"
  {
  }

  /** The fixed classifications of the table. */
  lemma KnownExtensions()
    ensures GetMimeTypeMapping(".txt") == MimeTypeMapping(".txt", "text/plain", true)
    ensures GetMimeTypeMapping(".log") == MimeTypeMapping(".log", "text/plain", true)
    ensures GetMimeTypeMapping(".zip") == MimeTypeMapping(".zip", "application/zip", false)
    ensures GetMimeTypeMapping(".gz") == MimeTypeMapping(".gz", "application/x-zip-compressed", false)
    ensures GetMimeTypeMapping(".rar") == MimeTypeMapping(".rar", "application/x-rar-compressed", false)
  {
    EveryRuleIsReachable(0);
    EveryRuleIsReachable(1);
    EveryRuleIsReachable(2);
    EveryRuleIsReachable(3);
    EveryRuleIsReachable(4);
  }

  /** Matching is case-sensitive: an upper-case ".LOG", or a file without extension, falls to the binary default. */
  lemma UnlistedExtensionsAreBinary()
    ensures GetMimeTypeMapping(".LOG") == DefaultMimeTypeMapping
    ensures GetMimeTypeMapping("") == DefaultMimeTypeMapping
    ensures GetMimeTypeMapping(".bin") == DefaultMimeTypeMapping
  {
  }
}
