/**
 * The parts of the Sitecore platform that the media code calls into:
 * the string and path helpers of FileUtil and StringUtil (as small concrete
 * definitions), the configuration settings, the MediaCreatorOptions value,
 * and the foreign services (as uninterpreted functions carried by a
 * `Platform` value).
 */
module Platform {
  import opened Wrappers

  type Language = string

  /** The errors that the media code raises, through Assert.* or a runtime fault. */
  datatype Error =
    | ArgumentNull(argument: string)            // Assert.ArgumentNotNull
    | ArgumentEmpty(argument: string)           // Assert.ArgumentNotNullOrEmpty
    | NotBeneathMediaFolder(filePath: string)   // SubtractPath gave null
    | EmptyRelativePath(filePath: string)
    | InvalidItemName(itemPath: string)         // InvalidOperationException in GetItemName
    | IndexOutOfRange                           // string indexer past the end
    | TemplateNotFound(extension: string, versioned: bool)
    | TemplateItemMissing(template: string)
    | FolderTemplateMissing
    | CouldNotCreateFolder(itemPath: string)
    | NullReference(what: string)

  /** The root under which every media item lives. */
  const MediaLibraryRoot: string := "/sitecore/media library"
  /** The name used for an item whose path ends in an empty segment. */
  const UnnamedItem: string := "unnamed"
  /** TemplateIDs.MediaFolder, in the canonical form of a Sitecore ID. */
  const MediaFolderTemplate: string := "{FE5DD826-48C6-436D-B87A-7C4210C7413B}"
  /** The standard field FieldIDs.DefaultWorkflow. */
  const DefaultWorkflowField: string := "__Default workflow"

  // ---------------------------------------------------------------------
  // Characters and strings
  // ---------------------------------------------------------------------

  predicate IsSeparator(c: char) { c == '/' || c == '\\' }

  /** The last position below `n` holding `c`, or -1. */
  function LastIndexBelow(s: string, c: char, n: nat): (r: int)
    requires n <= |s|
    ensures -1 <= r < n
    ensures r >= 0 ==> s[r] == c
    ensures forall j :: r < j < n ==> s[j] != c
  {
    if n == 0 then -1 else if s[n - 1] == c then n - 1 else LastIndexBelow(s, c, n - 1)
  }

  /** string.LastIndexOf(char): the last position holding `c`, or -1. */
  function LastIndexOf(s: string, c: char): (r: int)
    ensures -1 <= r < |s|
    ensures r >= 0 ==> s[r] == c
    ensures forall j :: r < j < |s| ==> s[j] != c
  {
    LastIndexBelow(s, c, |s|)
  }

  /** The last position below `n` holding `/` or `\`, or -1. */
  function LastSeparatorBelow(s: string, n: nat): (r: int)
    requires n <= |s|
    ensures -1 <= r < n
    ensures r >= 0 ==> IsSeparator(s[r])
    ensures forall j :: r < j < n ==> !IsSeparator(s[j])
  {
    if n == 0 then -1 else if IsSeparator(s[n - 1]) then n - 1 else LastSeparatorBelow(s, n - 1)
  }

  /** The last position holding `/` or `\`, or -1. */
  function LastSeparator(s: string): (r: int)
    ensures -1 <= r < |s|
    ensures r >= 0 ==> IsSeparator(s[r])
    ensures forall j :: r < j < |s| ==> !IsSeparator(s[j])
  {
    LastSeparatorBelow(s, |s|)
  }

  /** The first position holding `c`, or |s| when there is none. */
  function IndexOfOrEnd(s: string, c: char): (r: nat)
    ensures r <= |s|
    ensures r < |s| ==> s[r] == c
    ensures forall j :: 0 <= j < r ==> s[j] != c
  {
    if |s| == 0 || s[0] == c then 0 else 1 + IndexOfOrEnd(s[1..], c)
  }

  /** string.Replace(char, char). */
  function ReplaceChar(s: string, a: char, b: char): (r: string)
    ensures |r| == |s|
    ensures forall i :: 0 <= i < |s| ==> r[i] == (if s[i] == a then b else s[i])
  {
    if s == [] then [] else ReplaceChar(s[..|s| - 1], a, b) + [if s[|s| - 1] == a then b else s[|s| - 1]]
  }

  function LowerChar(c: char): char {
    if 'A' <= c <= 'Z' then (c as int - 'A' as int + 'a' as int) as char else c
  }

  /** ToLowerInvariant, restricted to the ASCII letters. */
  function Lower(s: string): (r: string)
    ensures |r| == |s|
    ensures forall i :: 0 <= i < |s| ==> r[i] == LowerChar(s[i])
  {
    if s == [] then [] else Lower(s[..|s| - 1]) + [LowerChar(s[|s| - 1])]
  }

  /** StringUtil.GetString(a, b): the first of the two that is not empty. */
  function FirstNonEmpty(a: string, b: string): string {
    if a != "" then a else b
  }

  /** StringUtil.GetLastPart(s, c, default): the text after the last `c`, or `default` without one. */
  function GetLastPart(s: string, c: char, default: string): string {
    var k := LastIndexOf(s, c);
    if k < 0 then default else s[k + 1..]
  }

  /**
   * Path.GetInvalidFileNameChars() on Windows: the control characters,
   * the quote, `<`, `>`, `|`, `:`, `*`, `?`, and both separators.
   */
  predicate InvalidFileNameChar(c: char) {
    c < ' ' || c in "\"<>|:*?\\/"
  }

  // ---------------------------------------------------------------------
  // FileUtil path helpers
  // ---------------------------------------------------------------------

  /** FileUtil.MakePath(part1, part2, separator): join with exactly one separator at the seam. */
  function MakePath(part1: string, part2: string, sep: char): (r: string)
    ensures part1 <= r
    ensures forall c :: c in r ==> c in part1 || c in part2 || c == sep
  {
    if part1 == "" then part2
    else if part2 == "" then part1
    else if part1[|part1| - 1] == sep then
      (if part2[0] == sep then part1 + part2[1..] else part1 + part2)
    else if part2[0] == sep then part1 + part2
    else part1 + [sep] + part2
  }

  /** FileUtil.GetFileName: the text after the last `/` or `\`. */
  function GetFileName(path: string): string {
    path[LastSeparator(path) + 1..]
  }

  /** FileUtil.GetParentPath: the text before the last `/` or `\`, or "" without one. */
  function GetParentPath(path: string): string {
    var k := LastSeparator(path);
    if k < 0 then "" else path[..k]
  }

  /** FileUtil.GetExtension: the text after the last `.` of the file name, without the dot. */
  function GetExtension(path: string): string {
    var name := GetFileName(path);
    var d := LastIndexOf(name, '.');
    if d < 0 then "" else name[d + 1..]
  }

  /** Path.GetExtension: the extension with its dot, or "" when there is none. */
  function DotExtension(path: string): string {
    var e := GetExtension(path);
    if e == "" then "" else "." + e
  }

  /** The file name without its "." + extension (the stem GetOutputFilePath computes). */
  function FileStem(path: string): (r: string)
    ensures GetExtension(path) != "" ==> GetFileName(path) == r + "." + GetExtension(path)
    ensures GetExtension(path) == "" ==> r == GetFileName(path)
  {
    var name := GetFileName(path);
    var e := GetExtension(path);
    if |e| > 0 then
      var d := LastIndexOf(name, '.');
      assert name == name[..d] + "." + name[d + 1..];
      name[..|name| - |e| - 1]
    else name
  }

  // ---------------------------------------------------------------------
  // Item IDs
  // ---------------------------------------------------------------------

  const HexAlphabet: string := "0123456789ABCDEF"

  /** The `width` low hexadecimal digits of `n`, most significant first. */
  function HexDigits(n: nat, width: nat): (r: string)
    ensures |r| == width
  {
    if width == 0 then [] else HexDigits(n / 16, width - 1) + [HexAlphabet[n % 16]]
  }

  /** Every character HexDigits produces is a hexadecimal digit. */
  lemma {:induction false} HexDigitsChars(n: nat, width: nat)
    ensures forall i :: 0 <= i < width ==> HexDigits(n, width)[i] in HexAlphabet
  {
    if width > 0 {
      HexDigitsChars(n / 16, width - 1);
    }
  }

  predicate IdChar(c: char) { c in HexAlphabet || c == '{' || c == '}' || c == '-' }

  /** ID.ToString() of the item numbered `n`: braces around an upper-case GUID. */
  function IdText(n: nat): (r: string)
    ensures |r| == 38
  {
    var h := HexDigits(n, 32);
    "{" + h[..8] + "-" + h[8..12] + "-" + h[12..16] + "-" + h[16..20] + "-" + h[20..] + "}"
  }

  /** An ID's text holds only hexadecimal digits, braces and dashes. */
  lemma IdTextChars(n: nat)
    ensures forall i :: 0 <= i < |IdText(n)| ==> IdChar(IdText(n)[i])
  {
    var h := HexDigits(n, 32);
    HexDigitsChars(n, 32);
    var r := IdText(n);
    forall i | 0 <= i < |r| ensures IdChar(r[i]) {
      assert r[i] == '{' || r[i] == '}' || r[i] == '-' || r[i] in h;
    }
  }

  // ---------------------------------------------------------------------
  // Settings, options and foreign services
  // ---------------------------------------------------------------------

  /** The Settings.* values the media code reads. */
  datatype Settings = Settings(
    mediaFolder: string,                  // Settings.MediaFolder
    whitespaceReplacement: string,        // Settings.Media.WhitespaceReplacement
    includeExtensionsInItemNames: bool,   // Settings.Media.IncludeExtensionsInItemNames
    maxSizeInDatabase: int,               // Settings.Media.MaxSizeInDatabase
    uploadAsFiles: bool                   // Settings.Media.UploadAsFiles
  )

  /** MediaCreatorOptions. */
  datatype Options = Options(
    destination: string,
    includeExtensionInItemName: bool,
    overwriteExisting: bool,
    language: Option<Language>,
    versioned: bool,
    fileBased: bool,
    outputFilePath: string,
    alternateText: string
  )

  /** `new MediaCreatorOptions { ... }` with every property left at its default. */
  const DefaultOptions: Options := Options("", false, false, None, false, false, "", "")

  /** The foreign services, as functions about which nothing is assumed. */
  datatype Platform = Platform(
    subtractPath: (string, string) -> Option<string>,   // FileUtil.SubtractPath(path, basePath)
    isFolder: string -> bool,                           // FileUtil.IsFolder
    proposeValidMediaPath: (string, bool) -> string,    // MediaPathManager.ProposeValidMediaPath(path, isFolder)
    proposeValidUploadPath: string -> string,           // MediaPathManager.ProposeValidMediaPath(path)
    getMediaFilePath: (string, string) -> string,       // MediaPathManager.GetMediaFilePath(path, extension)
    getUniqueFilename: string -> string,                // FileUtil.GetUniqueFilename
    getTemplate: (string, bool) -> string,              // MediaManager.Config.GetTemplate(extension, versioned)
    fileLength: string -> int,                          // new FileInfo(path).Length
    isUnpack: (bool, string) -> bool,                   // UploadProcessor.IsUnpack(args.Unpack, fileName)
    fileHandle: string -> string,                       // FileHandle.GetFileHandle
    hasWorkflow: string -> bool,                        // WorkflowProvider.GetWorkflow(id) != null
    contextLanguage: Language,                          // Context.Language
    fileBasedOptions: Options                           // MediaCreatorOptions.Empty after Build(FileBasedContext)
  )
}
