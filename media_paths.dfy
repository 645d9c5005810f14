/**
 * The pure path and naming rules of MediaCreator: from a file path to a
 * media item path, from an item path to its name and parent folder, and from
 * an item ID and a file name to the storage path of a file-based blob.
 */
module MediaPaths {
  import opened Wrappers
  import opened Platform

  // ---------------------------------------------------------------------
  // GetItemPath
  // ---------------------------------------------------------------------

  /** The position of the extension's dot: the last `.`, unless a `\` follows it. */
  function ExtensionDot(text: string): (r: int)
    ensures -1 <= r < |text|
    ensures r >= 0 ==> text[r] == '.' && LastIndexOf(text, '\\') < r
    ensures r >= 0 ==> forall j :: r < j < |text| ==> text[j] != '.'
    ensures r < 0 ==> forall j :: LastIndexOf(text, '\\') < j < |text| ==> text[j] != '.'
  {
    var d := LastIndexOf(text, '.');
    if d < LastIndexOf(text, '\\') then -1 else d
  }

  /**
   * The relative path after the extension rule: a file with an extension
   * keeps the text before the dot, followed by the replacement token and the
   * lower-cased extension when extensions are included in item names.
   */
  function RelativeName(text: string, isFolder: bool, includeExtension: bool, whitespaceReplacement: string): (r: string)
    ensures isFolder || ExtensionDot(text) < 0 ==> r == text
    ensures !isFolder && ExtensionDot(text) >= 0 ==>
      var dot := ExtensionDot(text);
      && text == text[..dot] + "." + text[dot + 1..]
      && r == text[..dot] + (if includeExtension then whitespaceReplacement + Lower(text[dot + 1..]) else "")
    ensures text[..LastIndexOf(text, '\\') + 1] <= r
  {
    var dot := ExtensionDot(text);
    if dot >= 0 && !isFolder then
      var suffix := if includeExtension then whitespaceReplacement + Lower(text[dot + 1..]) else "";
      assert text == text[..dot] + "." + text[dot + 1..];
      assert text[..LastIndexOf(text, '\\') + 1] == text[..dot][..LastIndexOf(text, '\\') + 1];
      text[..dot] + suffix
    else text
  }

  /** The path handed to ProposeValidMediaPath: the relative path under the media library root, with `/` only. */
  function CandidateItemPath(rel: string): (r: string)
    ensures '\\' !in r
    ensures MediaLibraryRoot <= r
    ensures rel != "" && !IsSeparator(rel[0]) ==> r == MediaLibraryRoot + "/" + ReplaceChar(rel, '\\', '/')
    ensures rel != "" && IsSeparator(rel[0]) ==> r == MediaLibraryRoot + "/" + ReplaceChar(rel, '\\', '/')[1..]
  {
    var p := ReplaceChar(rel, '\\', '/');
    assert '\\' !in p by {
      forall i | 0 <= i < |p| ensures p[i] != '\\' { }
    }
    MakePath(MediaLibraryRoot, p, '/')
  }

  /** MediaCreator.GetItemPath. */
  function GetItemPath(env: Platform, settings: Settings, filePath: string, options: Options): (r: Result<string, Error>)
    ensures options.destination != "" ==> r == Success(options.destination)
  {
    if options.destination != "" then Success(options.destination)
    else match env.subtractPath(filePath, settings.mediaFolder)
      case None => Failure(NotBeneathMediaFolder(filePath))
      case Some(text) =>
        var isFolder := env.isFolder(filePath);
        var rel := RelativeName(text, isFolder, options.includeExtensionInItemName, settings.whitespaceReplacement);
        if rel == "" then Failure(EmptyRelativePath(filePath))
        else Success(env.proposeValidMediaPath(CandidateItemPath(rel), isFolder))
  }

  /**
   * Without a destination, GetItemPath fails exactly when the file is not
   * beneath the media folder or the relative path is empty; otherwise it is
   * the proposal for the relative path's candidate under the media library
   * root (which holds no `\`), with the folder flag passed through; the
   * relative path keeps the directory part of the subtracted text.
   */
  lemma GetItemPathWithoutDestination(env: Platform, settings: Settings, filePath: string, options: Options)
    requires options.destination == ""
    ensures env.subtractPath(filePath, settings.mediaFolder).None? ==>
      GetItemPath(env, settings, filePath, options) == Failure(NotBeneathMediaFolder(filePath))
    ensures env.subtractPath(filePath, settings.mediaFolder).Some? ==>
      var text := env.subtractPath(filePath, settings.mediaFolder).value;
      var isFolder := env.isFolder(filePath);
      var rel := RelativeName(text, isFolder, options.includeExtensionInItemName, settings.whitespaceReplacement);
      && (GetItemPath(env, settings, filePath, options).Failure? <==> rel == "")
      && (rel == "" ==> GetItemPath(env, settings, filePath, options) == Failure(EmptyRelativePath(filePath)))
      && text[..LastIndexOf(text, '\\') + 1] <= rel
      && (rel != "" ==> GetItemPath(env, settings, filePath, options) == Success(env.proposeValidMediaPath(CandidateItemPath(rel), isFolder)))
  { }

  /** A folder's relative path is never given an extension suffix, whatever the options. */
  lemma FolderNameUnchanged(text: string, includeExtension: bool, whitespaceReplacement: string)
    ensures RelativeName(text, true, includeExtension, whitespaceReplacement) == text
  { }

  /** With extensions left out of names, putting the dot and the extension back restores the text. */
  lemma {:induction false} StrippedExtensionRoundTrip(text: string, whitespaceReplacement: string)
    requires ExtensionDot(text) >= 0
    ensures RelativeName(text, false, false, whitespaceReplacement) + "." + text[ExtensionDot(text) + 1..] == text
  {
    var dot := ExtensionDot(text);
    assert RelativeName(text, false, false, whitespaceReplacement) == text[..dot];
    assert text == text[..dot] + "." + text[dot + 1..];
  }

  /** With extensions left out of names, `upload\photo.jpg` becomes the relative path `upload\photo`. */
  lemma PhotoRelativeName(ws: string)
    ensures RelativeName("upload\\photo.jpg", false, false, ws) == "upload\\photo"
  {
    var t := "upload\\photo.jpg";
    LastIndexAt(t, '.', 12);
    LastIndexAt(t, '\\', 6);
    assert ExtensionDot(t) == 12;
    assert t[..12] == "upload\\photo";
  }

  /** The relative path `upload\photo` is proposed as `/sitecore/media library/upload/photo`. */
  lemma PhotoItemPath()
    ensures CandidateItemPath("upload\\photo") == "/sitecore/media library/upload/photo"
  {
    PhotoSlashes();
    assert !IsSeparator("upload\\photo"[0]);
    assert MediaLibraryRoot + "/" + "upload/photo" == "/sitecore/media library/upload/photo";
  }

  lemma PhotoSlashes()
    ensures ReplaceChar("upload\\photo", '\\', '/') == "upload/photo"
  {
    var rel := "upload\\photo";
    var q := ReplaceChar(rel, '\\', '/');
    forall i | 0 <= i < |q| ensures q[i] == "upload/photo"[i] {
      assert rel[i] == (if i == 6 then '\\' else "upload/photo"[i]);
    }
  }


  // ---------------------------------------------------------------------
  // GetItemName and GetParentFolder
  // ---------------------------------------------------------------------

  /** MediaCreator.GetItemName: the last `/`-segment, "unnamed" in its place, or an error. */
  function GetItemName(settings: Settings, itemPath: string): (r: Result<string, Error>)
    ensures r.Success? ==> r.value != "" && '/' !in r.value
    ensures r.Failure? <==> settings.includeExtensionsInItemNames && GetLastPart(itemPath, '/', "") == ""
    ensures r.Failure? ==> r.error == InvalidItemName(itemPath)
  {
    var lastPart := GetLastPart(itemPath, '/', "");
    if lastPart != "" then Success(lastPart)
    else if !settings.includeExtensionsInItemNames then Success(UnnamedItem)
    else Failure(InvalidItemName(itemPath))
  }

  /** The path GetParentFolder hands to CreateFolder: the text before the last `/`, or the media library root. */
  function ParentFolderPath(itemPath: string): string {
    var k := LastIndexOf(itemPath, '/');
    if k >= 0 then itemPath[..k] else MediaLibraryRoot
  }

  /** The parent folder path and the item name put back together give the item path. */
  lemma ItemPathSplit(settings: Settings, itemPath: string)
    requires GetLastPart(itemPath, '/', "") != ""
    ensures GetItemName(settings, itemPath).Success?
    ensures ParentFolderPath(itemPath) + "/" + GetItemName(settings, itemPath).value == itemPath
  {
    var k := LastIndexOf(itemPath, '/');
    assert itemPath == itemPath[..k] + "/" + itemPath[k + 1..];
  }

  /** A path with no `/` lives in the media library root, under the placeholder name or not at all. */
  lemma ItemPathWithoutSlash(settings: Settings, itemPath: string)
    requires '/' !in itemPath
    ensures ParentFolderPath(itemPath) == MediaLibraryRoot
    ensures GetItemName(settings, itemPath) ==
      if settings.includeExtensionsInItemNames then Failure(InvalidItemName(itemPath)) else Success(UnnamedItem)
  {
    LastIndexAt(itemPath, '/', -1);
  }

  // ---------------------------------------------------------------------
  // Storage paths
  // ---------------------------------------------------------------------

  /** MediaCreator.GetMediaStorageFolder: `/s[1]/s[2]/s[3]/` + s + file name, s being the ID's text. */
  function GetMediaStorageFolder(idText: string, fullPath: string): (r: Result<string, Error>)
    ensures r.Failure? <==> fullPath == "" || |idText| < 4
    ensures fullPath == "" ==> r == Failure(ArgumentEmpty("fullPath"))
    ensures fullPath != "" && |idText| < 4 ==> r == Failure(IndexOutOfRange)
    ensures r.Success? ==>
      && |r.value| == 7 + |idText| + |GetFileName(fullPath)|
      && r.value[0] == '/' && r.value[2] == '/' && r.value[4] == '/' && r.value[6] == '/'
      && r.value[1] == idText[1] && r.value[3] == idText[2] && r.value[5] == idText[3]
      && r.value[7..] == idText + GetFileName(fullPath)
  {
    if fullPath == "" then Failure(ArgumentEmpty("fullPath"))
    else if |idText| < 4 then Failure(IndexOutOfRange)
    else Success("/" + [idText[1]] + "/" + [idText[2]] + "/" + [idText[3]] + "/" + idText + GetFileName(fullPath))
  }

  /** A separator at `k` with none after it is the last separator. */
  lemma LastSeparatorAt(s: string, k: int)
    requires -1 <= k < |s| && (k >= 0 ==> IsSeparator(s[k]))
    requires forall j :: k < j < |s| ==> !IsSeparator(s[j])
    ensures LastSeparator(s) == k
  { }

  /** An occurrence of `c` at `k` with none after it is the last one. */
  lemma LastIndexAt(s: string, c: char, k: int)
    requires -1 <= k < |s| && (k >= 0 ==> s[k] == c)
    requires forall j :: k < j < |s| ==> s[j] != c
    ensures LastIndexOf(s, c) == k
  { }

  /** The file name of the storage folder is the ID text followed by the original file name. */
  lemma StorageFileName(idText: string, fullPath: string)
    requires fullPath != "" && |idText| >= 4
    requires forall i :: 0 <= i < |idText| ==> !IsSeparator(idText[i])
    ensures var f := GetMediaStorageFolder(idText, fullPath).value;
      && LastSeparator(f) == 6
      && GetFileName(f) == idText + GetFileName(fullPath)
      && GetParentPath(f) == "/" + [idText[1]] + "/" + [idText[2]] + "/" + [idText[3]]
  {
    var f := GetMediaStorageFolder(idText, fullPath).value;
    var fn := GetFileName(fullPath);
    var ks := LastSeparator(fullPath);
    assert forall j :: 6 < j < |f| ==> !IsSeparator(f[j]) by {
      forall j | 6 < j < |f| ensures !IsSeparator(f[j]) {
        if j < 7 + |idText| {
          assert f[j] == idText[j - 7];
        } else {
          assert f[j] == fn[j - 7 - |idText|] == fullPath[ks + 1 + (j - 7 - |idText|)];
        }
      }
    }
    LastSeparatorAt(f, 6);
  }

  /** The last `c` of a concatenation lies in its second part if that holds one, in the first otherwise. */
  lemma LastIndexOfConcat(x: string, y: string, c: char)
    ensures LastIndexOf(x + y, c) ==
      (if LastIndexOf(y, c) >= 0 then |x| + LastIndexOf(y, c) else LastIndexOf(x, c))
  {
    var s := x + y;
    var ky := LastIndexOf(y, c);
    if ky >= 0 {
      assert s[|x| + ky] == y[ky];
      assert forall j :: |x| + ky < j < |s| ==> s[j] != c by {
        forall j | |x| + ky < j < |s| ensures s[j] != c { assert s[j] == y[j - |x|]; }
      }
      LastIndexAt(s, c, |x| + ky);
    } else {
      var kx := LastIndexOf(x, c);
      assert kx >= 0 ==> s[kx] == x[kx];
      assert forall j :: kx < j < |s| ==> s[j] != c by {
        forall j | kx < j < |s| ensures s[j] != c {
          if j < |x| { assert s[j] == x[j]; } else { assert s[j] == y[j - |x|]; }
        }
      }
      LastIndexAt(s, c, kx);
    }
  }

  predicate NoSeparator(s: string) { forall i :: 0 <= i < |s| ==> !IsSeparator(s[i]) }

  /** A text without separators is its own file name. */
  lemma FileNameOfPlain(s: string)
    requires NoSeparator(s)
    ensures GetFileName(s) == s
  {
    LastSeparatorAt(s, -1);
  }

  lemma NoSeparatorConcat(x: string, y: string)
    requires NoSeparator(x) && NoSeparator(y)
    ensures NoSeparator(x + y)
  {
    var s := x + y;
    forall j | 0 <= j < |s| ensures !IsSeparator(s[j]) {
      if j >= |x| { assert s[j] == y[j - |x|]; } else { assert s[j] == x[j]; }
    }
  }

  /** The extension of a text without separators is what follows its last dot. */
  lemma ExtensionOfPlain(s: string)
    requires NoSeparator(s)
    ensures GetExtension(s) == (if LastIndexOf(s, '.') < 0 then "" else s[LastIndexOf(s, '.') + 1..])
  {
    FileNameOfPlain(s);
  }

  /** Prefixing a dot-free, separator-free text to a file name keeps its extension. */
  lemma ExtensionOfPrefixed(prefix: string, fn: string)
    requires NoSeparator(prefix) && NoSeparator(fn)
    requires LastIndexOf(prefix, '.') < 0
    ensures GetFileName(prefix + fn) == prefix + fn
    ensures GetExtension(prefix + fn) == GetExtension(fn)
  {
    var name := prefix + fn;
    NoSeparatorConcat(prefix, fn);
    ExtensionOfPlain(name);
    ExtensionOfPlain(fn);
    LastIndexOfConcat(prefix, fn, '.');
    var d := LastIndexOf(fn, '.');
    if d >= 0 {
      assert name[|prefix| + d + 1..] == fn[d + 1..];
    }
  }

  /**
   * For an ID text free of separators and dots, the storage folder keeps the
   * original extension, and its stem is the ID text followed by the original stem.
   */
  lemma StorageFolderParts(idText: string, fullPath: string)
    requires fullPath != "" && |idText| >= 4
    requires NoSeparator(idText) && LastIndexOf(idText, '.') < 0
    ensures var f := GetMediaStorageFolder(idText, fullPath).value;
      && GetExtension(f) == GetExtension(fullPath)
      && FileStem(f) == idText + FileStem(fullPath)
  {
    StorageFileName(idText, fullPath);
    PrefixedFileName(GetMediaStorageFolder(idText, fullPath).value, idText, fullPath);
  }

  /** A path whose file name is a plain prefix plus another path's file name has that path's extension. */
  lemma PrefixedFileName(f: string, prefix: string, p: string)
    requires NoSeparator(prefix) && LastIndexOf(prefix, '.') < 0
    requires GetFileName(f) == prefix + GetFileName(p)
    ensures GetExtension(f) == GetExtension(p)
    ensures FileStem(f) == prefix + FileStem(p)
  {
    PrefixedExtension(f, prefix, p);
    var fn := GetFileName(p);
    var e := GetExtension(p);
    StemFromParts(f, prefix + fn, e);
    StemFromParts(p, fn, e);
    StemOfPrefixed(prefix, fn, e);
  }

  /** The extension half of PrefixedFileName. */
  lemma PrefixedExtension(f: string, prefix: string, p: string)
    requires NoSeparator(prefix) && LastIndexOf(prefix, '.') < 0
    requires GetFileName(f) == prefix + GetFileName(p)
    ensures GetExtension(f) == GetExtension(p)
  {
    var fn := GetFileName(p);
    FileNameIsPlain(p);
    ExtensionOfPrefixed(prefix, fn);
    SameFileNameSameExtension(f, prefix + fn);
    ExtensionViaFileName(p);
  }

  /** FileStem in terms of the file name and the extension alone. */
  lemma StemFromParts(p: string, name: string, e: string)
    requires GetFileName(p) == name && GetExtension(p) == e
    ensures |e| > 0 ==> |name| > |e|
    ensures FileStem(p) == if |e| > 0 then name[..|name| - |e| - 1] else name
  { }

  lemma SameFileNameSameExtension(p: string, q: string)
    requires GetFileName(p) == GetFileName(q)
    ensures GetExtension(p) == GetExtension(q)
  { }

  /** A file name never holds a separator. */
  lemma FileNameIsPlain(p: string)
    ensures NoSeparator(GetFileName(p))
  {
    var k := LastSeparator(p);
    var fn := GetFileName(p);
    forall j | 0 <= j < |fn| ensures !IsSeparator(fn[j]) { assert fn[j] == p[k + 1 + j]; }
  }

  /** The extension of a path is the extension of its file name. */
  lemma ExtensionViaFileName(p: string)
    ensures GetExtension(p) == GetExtension(GetFileName(p))
  {
    FileNameIsPlain(p);
    FileNameOfPlain(GetFileName(p));
  }

  /** Cutting "." + extension off a prefixed name leaves the prefix and the cut name. */
  lemma StemOfPrefixed(prefix: string, fn: string, e: string)
    requires |e| > 0 ==> |fn| > |e|
    ensures var name := prefix + fn;
      |e| > 0 ==> name[..|name| - |e| - 1] == prefix + fn[..|fn| - |e| - 1]
  {
  }

  /** MediaCreator.GetOutputFilePath (the `itemPath` argument is checked but not used by the source). */
  function GetOutputFilePath(env: Platform, itemPath: string, filePath: string, options: Options): (r: string)
    ensures !options.fileBased ==> r == ""
    ensures options.fileBased && options.outputFilePath != "" ==> r == options.outputFilePath
  {
    if !options.fileBased then ""
    else if options.outputFilePath != "" then options.outputFilePath
    else env.getMediaFilePath(GetParentPath(filePath) + "/" + FileStem(filePath), GetExtension(filePath))
  }

  /** MediaCreator.GetFullFilePath: the output path for the item's private storage folder. */
  function GetFullFilePath(env: Platform, idText: string, fileName: string, itemPath: string, options: Options): (r: Result<string, Error>)
    ensures r.Failure? <==> fileName == "" || |idText| < 4
  {
    match GetMediaStorageFolder(idText, fileName)
    case Failure(e) => Failure(e)
    case Success(folder) => Success(GetOutputFilePath(env, itemPath, folder, options))
  }

  /**
   * The storage path of item `n`: empty for database storage, the
   * explicit output path when one is given, and otherwise the media file path
   * proposed for `/a/b/c/{ID}stem` with the file's extension, where a, b, c are
   * characters 1 to 3 of the ID text and `stem` is the file name without its extension.
   */
  lemma FullFilePathOfItem(env: Platform, n: nat, fileName: string, itemPath: string, options: Options)
    requires fileName != ""
    ensures var s := IdText(n);
      var r := GetFullFilePath(env, s, fileName, itemPath, options);
      && r.Success?
      && (!options.fileBased ==> r.value == "")
      && (options.fileBased && options.outputFilePath != "" ==> r.value == options.outputFilePath)
      && (options.fileBased && options.outputFilePath == "" ==>
            r.value == env.getMediaFilePath(
              "/" + [s[1]] + "/" + [s[2]] + "/" + [s[3]] + "/" + s + FileStem(fileName), GetExtension(fileName)))
  {
    IdTextPlain(n);
    FullFilePathOfPlainId(env, IdText(n), fileName, itemPath, options);
  }

  /** The text of an ID holds neither a separator nor a dot. */
  lemma IdTextPlain(n: nat)
    ensures NoSeparator(IdText(n)) && LastIndexOf(IdText(n), '.') < 0
  {
    var s := IdText(n);
    IdTextChars(n);
    assert NoSeparator(s) by {
      forall i | 0 <= i < |s| ensures !IsSeparator(s[i]) { assert IdChar(s[i]); }
    }
    assert forall i :: 0 <= i < |s| ==> s[i] != '.' by {
      forall i | 0 <= i < |s| ensures s[i] != '.' { assert IdChar(s[i]); }
    }
    LastIndexAt(s, '.', -1);
  }

  lemma FullFilePathOfPlainId(env: Platform, s: string, fileName: string, itemPath: string, options: Options)
    requires fileName != "" && |s| >= 4
    requires NoSeparator(s) && LastIndexOf(s, '.') < 0
    ensures var r := GetFullFilePath(env, s, fileName, itemPath, options);
      && r.Success?
      && (!options.fileBased ==> r.value == "")
      && (options.fileBased && options.outputFilePath != "" ==> r.value == options.outputFilePath)
      && (options.fileBased && options.outputFilePath == "" ==>
            r.value == env.getMediaFilePath(
              "/" + [s[1]] + "/" + [s[2]] + "/" + [s[3]] + "/" + s + FileStem(fileName), GetExtension(fileName)))
  {
    StorageFileName(s, fileName);
    StorageFolderParts(s, fileName);
    assert "/" + [s[1]] + "/" + [s[2]] + "/" + [s[3]] + "/" + (s + FileStem(fileName))
        == "/" + [s[1]] + "/" + [s[2]] + "/" + [s[3]] + "/" + s + FileStem(fileName);
  }

  // ---------------------------------------------------------------------
  // GetItemMediaLanguages
  // ---------------------------------------------------------------------

  /** MediaCreator.GetItemMediaLanguages: every database language when unversioned, the item's own otherwise. */
  function GetItemMediaLanguages(versioned: bool, databaseLanguages: seq<Language>, itemLanguage: Language): (r: seq<Language>)
    ensures versioned ==> r == [itemLanguage]
    ensures !versioned ==> r == databaseLanguages
  {
    if !versioned then databaseLanguages else [itemLanguage]
  }
}
