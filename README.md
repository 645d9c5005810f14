# Sitecore media ingestion (Sitecore.Support.90405), modelled in Dafny

This project models the media ingestion code of the Sitecore support patch
90405, which turns files into media items of the content database. It covers
four parts:

- **MediaCreator** turns a file path into a media item path. It creates the
  media folders along that path. It then either revises an existing media
  item in place or adds a new one. Finally it writes the media fields
  (extension, storage path, alternate text, revision) of the item in
  every media language. The file-watcher events FileCreated, FileDeleted and
  FileRenamed are modelled too.
- **MediaUploader** uploads one posted file. A zip archive with unpacking
  requested becomes one media item per file entry; any other file becomes a
  single item. Every item goes through CreateFromStream, with the proposed
  media path as its destination.
- **MediaUploadResult** is the per-file outcome, with three setters that
  refuse null.
- **Save** is the upload pipeline processor. For every posted file with a
  name it does one of two things. In the file-system branch it saves the file
  or extracts its archive; an archive holding an entry with a name invalid on
  Windows is refused. In the database branch it runs a MediaUploader,
  starts the default workflow of every result when overwriting, and records
  the uploaded items.

## Modules and files

| file | module | contents |
|---|---|---|
| `wrappers.dfy` | `Wrappers` | `Option`, `Result` and `Outcome`, used in place of null and exceptions |
| `platform.dfy` | `Platform` | the string and path helpers of FileUtil and StringUtil, the settings, `MediaCreatorOptions`, the ID text, and the foreign services as uninterpreted functions |
| `repository.dfy` | `Repository` | the content database as a class: items by numeric id, path lookup, and the item operations the media code calls |
| `media_paths.dfy` | `MediaPaths` | the pure naming rules of MediaCreator: item path, item name, parent folder, storage folder and output file path |
| `upload_result.dfy` | `UploadResult` | the `MediaUploadResult` class |
| `media_creator.dfy` | `MediaCreator` | CreateItem and its branches, CreateFolder, the Create* entry points and the file-watcher events |
| `media_uploader.dfy` | `Uploader` | the `MediaUploader` class |
| `save.dfy` | `Save` | the disk as a write log, `UploadArgs`, both branches of `Process`, and the functions that specify them |

## Modelling choices

- A null reference is `None`. A thrown exception is a `Failure` or `Fail` carrying an `Error`. The `Error` names the assertion or fault: `ArgumentEmpty("filePath")`, `InvalidItemName(path)`, `NullReference("workflow")`, and so on.
- The content database is one `Database` object. Each item has a numeric id, a name, a parent link, a template, media versions per language, and shared fields. Item IDs come from a counter. `IdText` renders the counter as the 38-character braced upper-case GUID that `ID.ToString()` gives.
- Names need not be unique among siblings. A path lookup takes the oldest child of each name.
- Each language's versions are a sequence. `Latest` gives the latest version, or a blank one when the language has none.
- FileUtil, StringUtil and `Path` are small concrete functions: MakePath, GetFileName, GetParentPath, GetExtension, GetLastPart, LastIndexOf, Replace, ToLowerInvariant restricted to ASCII, and the Windows invalid file-name characters.
- Services whose code is not part of this model are arrow-typed fields of a `Platform` value about which nothing is assumed. They are:
  - FileUtil.SubtractPath, FileUtil.IsFolder and FileUtil.GetUniqueFilename;
  - both MediaPathManager.ProposeValidMediaPath overloads, and MediaPathManager.GetMediaFilePath;
  - MediaManager.Config.GetTemplate;
  - the file length;
  - UploadProcessor.IsUnpack;
  - FileHandle.GetFileHandle;
  - the workflow lookup;
  - Context.Language;
  - the options after `Build(FileBasedContext)`.
- `MediaCreatorOptions.Build(UploadContext)` is treated as leaving the options as set.
- The file system is a `Disk` object that logs its writes in order: files saved, directories created, and files created from archive entries.
- `Workflow.Start` is recorded in `Database.workflowStarts`.

## Behaviour of the code worth noting

- The storage folder uses characters 1, 2 and 3 of the ID text, counted from zero. For `{ABC…}` that is `/A/B/C/`; the opening brace is skipped.
- A refused archive in the file-system branch sets the error text and calls `AbortPipeline`. The loop of `Save.Process` still goes on with the remaining posted files. The model does the same: `aborted` is set and the run continues.
- The reset of every field before revising an existing item is commented out, and so is the second edit scope. Neither is modelled. A revised item keeps its shared fields.
- FileRenamed looks the item up without a language, so it edits the version in the context language.
- `GetOutputFilePath` checks its `itemPath` argument but never uses it.
- The parent folder path comes from dividing the item path at its last `/`. An item path with no `/` lives in the media library root. An item path `"/x"` has the parent path `""`, and CreateFolder then refuses it with `ArgumentEmpty("itemPath")`.

## Model

| member | source | states |
|---|---|---|
| `Platform.LastIndexOf` | src/Sitecore.Support.90405/MediaCreator.cs:262-266 | the result is -1 or a position holding the character, and no later position holds it |
| `Platform.ReplaceChar` | src/Sitecore.Support.90405/MediaCreator.cs:281 | same length; every `a` becomes `b` and every other character is kept |
| `Platform.Lower` | src/Sitecore.Support.90405/MediaCreator.cs:273 | same length; each character lower-cased (ASCII letters) |
| `Platform.MakePath` | src/Sitecore.Support.90405/MediaCreator.cs:281 | the first part is a prefix of the result, and the result holds only characters of the parts and the separator |
| `Platform.FileStem` | src/Sitecore.Support.90405/MediaCreator.cs:512-517 | the file name is the stem followed by `.` and the extension, or the stem alone when there is no extension |
| `Platform.IdText` | src/Sitecore.Support.90405/MediaCreator.cs:303 | an ID's text is 38 characters long |
| `Platform.IdTextChars` | src/Sitecore.Support.90405/MediaCreator.cs:303 | an ID's text holds only hexadecimal digits, braces and dashes |
| `UploadResult.MediaUploadResult.constructor` | src/Sitecore.Support.90405/MediaUploadResult.cs:12-16 | a new result has item, path and valid media path all null |
| `UploadResult.MediaUploadResult.SetItem` | src/Sitecore.Support.90405/MediaUploadResult.cs:28-32 | null is refused with ArgumentNull("value") and the item kept; otherwise the item is replaced; the other two properties never change |
| `UploadResult.MediaUploadResult.SetPath` | src/Sitecore.Support.90405/MediaUploadResult.cs:45-49 | null is refused and the path kept; otherwise the path is replaced; the other properties never change |
| `UploadResult.MediaUploadResult.SetValidMediaPath` | src/Sitecore.Support.90405/MediaUploadResult.cs:62-66 | null is refused and the valid media path kept; otherwise it is replaced; the other properties never change |
| `Repository.PutLatest` | src/Sitecore.Support.90405/MediaCreator.cs:414-428 | the edited language's latest version is the new one; every other language, the name, parent, template and fields are unchanged |
| `Repository.FieldValue` | src/Sitecore.Support.90405/Save.cs:85 | an item's own field value wins; without it and without standard values for its template the value is empty |
| `Repository.ScanChild` | src/Sitecore.Support.90405/MediaCreator.cs:335 | the result is the lowest id in range of a child with that name and parent, and None exactly when there is none |
| `Repository.Segments` | src/Sitecore.Support.90405/MediaCreator.cs:335 | every segment is non-empty and free of `/` |
| `Repository.Resolve` | src/Sitecore.Support.90405/MediaCreator.cs:335 | a path lookup only ever yields an item of the database |
| `Repository.ResolveAfterAdd` | src/Sitecore.Support.90405/MediaCreator.cs:340 | adding an item under a fresh id does not move any path that already resolved |
| `Repository.ResolveSameShape` | src/Sitecore.Support.90405/MediaCreator.cs:414-428 | edits that keep every name and parent leave every path lookup unchanged |
| `Repository.Database.constructor` | src/Sitecore.Support.90405/MediaCreator.cs:372 | a database holds only its root item `/sitecore`, with the given languages, templates and standard values |
| `Repository.Database.AddChild` | src/Sitecore.Support.90405/MediaCreator.cs:399 | Item.Add: a fresh id, one blank version in the language, no fields, nothing else changed |
| `Repository.Database.CreateItemPath` | src/Sitecore.Support.90405/MediaCreator.cs:340 | succeeds exactly for paths that start at the root; then the path resolves to the result; only items with the folder template are added; on failure nothing changes |
| `Repository.Database.Descend` | src/Sitecore.Support.90405/MediaCreator.cs:340 | one more segment resolves, to an existing child or a new one with the folder template |
| `Repository.Database.RemoveAllVersions` | src/Sitecore.Support.90405/MediaCreator.cs:379 | every version of the item is dropped and nothing else changes |
| `Repository.Database.AddVersion` | src/Sitecore.Support.90405/MediaCreator.cs:382 | one blank version is appended in the language and nothing else changes |
| `Repository.Database.StartWorkflow` | src/Sitecore.Support.90405/Save.cs:90 | the item is appended to the log of workflow starts |
| `MediaPaths.ExtensionDot` | src/Sitecore.Support.90405/MediaCreator.cs:262-266 | the dot that starts the extension: the last `.`, and only if no `\` follows it |
| `MediaPaths.RelativeName` | src/Sitecore.Support.90405/MediaCreator.cs:267-276 | folders and texts without an extension are kept; otherwise the text before the dot, then (when extensions are in names) the whitespace replacement and the lower-cased extension; the directory part is always kept |
| `MediaPaths.CandidateItemPath` | src/Sitecore.Support.90405/MediaCreator.cs:281 | the path starts with the media library root, holds no `\`, and is the root, `/`, and the relative path with `/` for `\` |
| `MediaPaths.GetItemPath` | src/Sitecore.Support.90405/MediaCreator.cs:252-255 | a set destination is the item path, whatever the file |
| `MediaPaths.GetItemPathWithoutDestination` | src/Sitecore.Support.90405/MediaCreator.cs:256-283 | without a destination: a file outside the media folder fails; an empty relative path fails; otherwise the result is the media path proposed for CandidateItemPath of the relative path, with the folder flag; the relative path keeps the directory part of the subtracted text |
| `MediaPaths.FolderNameUnchanged` | src/Sitecore.Support.90405/MediaCreator.cs:268 | a folder's relative path never gets an extension suffix |
| `MediaPaths.StrippedExtensionRoundTrip` | src/Sitecore.Support.90405/MediaCreator.cs:268-276 | with extensions left out of names, adding the dot and the extension back gives the original text |
| `MediaPaths.PhotoRelativeName` | src/Sitecore.Support.90405/MediaCreator.cs:262-276 | `upload\photo.jpg` becomes `upload\photo` |
| `MediaPaths.PhotoItemPath` | src/Sitecore.Support.90405/MediaCreator.cs:281 | `upload\photo` becomes `/sitecore/media library/upload/photo` |
| `MediaPaths.GetItemName` | src/Sitecore.Support.90405/MediaCreator.cs:575-588 | a name is non-empty and free of `/`; it fails with InvalidItemName exactly when the last part is empty and extensions are in item names |
| `MediaPaths.ItemPathSplit` | src/Sitecore.Support.90405/MediaCreator.cs:634-641 | the parent folder path, `/` and the item name give back the item path |
| `MediaPaths.ItemPathWithoutSlash` | src/Sitecore.Support.90405/MediaCreator.cs:639 | a path without `/` has the media library root as parent and is named "unnamed" or refused |
| `MediaPaths.GetMediaStorageFolder` | src/Sitecore.Support.90405/MediaCreator.cs:298-312 | fails exactly on an empty path or a too-short ID text; otherwise `/`, characters 1 to 3 of the ID text each followed by `/`, then the ID text and the file name |
| `MediaPaths.StorageFileName` | src/Sitecore.Support.90405/MediaCreator.cs:298-312 | the storage folder's file name is the ID text followed by the file name; its parent is the three one-character folders |
| `MediaPaths.StorageFolderParts` | src/Sitecore.Support.90405/MediaCreator.cs:298-312 | the storage folder keeps the file's extension; its stem is the ID text followed by the file's stem |
| `MediaPaths.GetOutputFilePath` | src/Sitecore.Support.90405/MediaCreator.cs:499-520 | database storage has an empty output path; an explicit output path wins |
| `MediaPaths.GetFullFilePath` | src/Sitecore.Support.90405/MediaCreator.cs:475-482 | fails exactly when the storage folder does |
| `MediaPaths.FullFilePathOfItem` | src/Sitecore.Support.90405/MediaCreator.cs:475-520 | for an item id: always succeeds; empty for database storage; the explicit output path when set; else the media file path for `/a/b/c/{ID}stem` with the file's extension |
| `MediaPaths.IdTextPlain` | src/Sitecore.Support.90405/MediaCreator.cs:303 | an ID's text holds no separator and no dot |
| `MediaPaths.GetItemMediaLanguages` | src/Sitecore.Support.90405/MediaCreator.cs:442-455 | unversioned: every database language; versioned: only the item's language |
| `MediaCreator.ItemTemplate` | src/Sitecore.Support.90405/MediaCreator.cs:602-620 | succeeds exactly when the configured template for the extension is non-empty and in the database, and then gives that template |
| `MediaCreator.FanOutKeeps` | src/Sitecore.Support.90405/MediaCreator.cs:405-430 | the fan-out changes only media versions, and only in the languages it is given |
| `MediaCreator.FanOutWritten` | src/Sitecore.Support.90405/MediaCreator.cs:405-430 | each written language ends with the old extension or alt text if non-empty (else the new one), the new storage path, and the revision raised once per occurrence of the language |
| `MediaCreator.FanOutOfBase` | src/Sitecore.Support.90405/MediaCreator.cs:379-430 | after the reset or the add, every written language holds exactly the new extension, storage path and alt text; every other language is blank |
| `MediaCreator.MediaWrittenVersions` | src/Sitecore.Support.90405/MediaCreator.cs:364-434 | a created item is named by the item path and typed by the extension's template; every media language holds the extension, the storage path and the alt text, with a raised revision; the others are blank |
| `MediaCreator.WriteMediaVersions` | src/Sitecore.Support.90405/MediaCreator.cs:405-430 | the loop leaves the item as the fan-out over the languages, and nothing else changed |
| `MediaCreator.CreateFolder` | src/Sitecore.Support.90405/MediaCreator.cs:326-347 | the errors in source order: empty path, missing folder template, missing language, could not create; succeeds exactly for rooted paths; the result is the item at the path; an existing folder is returned unchanged; only media folders are added |
| `MediaCreator.Revise` | src/Sitecore.Support.90405/MediaCreator.cs:376-396 | every version dropped and one blank version added; with a template, the name and template set; without one, the reset stays and the error is returned |
| `MediaCreator.StampMedia` | src/Sitecore.Support.90405/MediaCreator.cs:405-430 | after the reset or the add, only the item is changed, and it ends as MediaWritten states |
| `MediaCreator.ReviseItem` | src/Sitecore.Support.90405/MediaCreator.cs:376-396 | an existing item keeps its id, parent and fields, has no children, and ends media-written; only it was touched |
| `MediaCreator.AddBase` | src/Sitecore.Support.90405/MediaCreator.cs:399 | a fresh child of the parent with the name, the template and one blank version; on failure nothing changes |
| `MediaCreator.AddItem` | src/Sitecore.Support.90405/MediaCreator.cs:399-430 | a fresh child of the parent folder, with no fields, ends media-written; only it was added |
| `MediaCreator.WriteItem` | src/Sitecore.Support.90405/MediaCreator.cs:376-430 | an existing item is revised exactly when it is reusable; otherwise a new child of the parent is added, and the existing item then is a media folder or has a child other than the new one; either way the result is media-written |
| `MediaCreator.AddInstead` | src/Sitecore.Support.90405/MediaCreator.cs:397-430 | a fresh media-written child of the parent with no fields; an existing item that could not be revised is a media folder or has a child other than the new one; on failure nothing changes |
| `MediaCreator.CreateItem` | src/Sitecore.Support.90405/MediaCreator.cs:364-434 | errors: empty item path, empty file path, missing language when overwriting; overwriting a childless non-folder item revises it in place; otherwise a new child of the parent folder, and an item found at the path when overwriting is a media folder or has a child other than the new one (the parent folders are made before the check); the result is media-written; only it and new media folders change |
| `MediaCreator.AttachStreamToMediaItem` | src/Sitecore.Support.90405/MediaCreator.cs:59-69 | an empty file name is refused; otherwise CreateItem's result, media-written for the file |
| `MediaCreator.CreateFromStream` | src/Sitecore.Support.90405/MediaCreator.cs:152-159 | an empty file path and a failing item path are refused with nothing changed; otherwise the item at GetItemPath is media-written |
| `MediaCreator.CreateFromFile` | src/Sitecore.Support.90405/MediaCreator.cs:83-97 | an empty file path is refused; otherwise as CreateFromStream for the file |
| `MediaCreator.CreateFromFolder` | src/Sitecore.Support.90405/MediaCreator.cs:111-117 | an empty path is refused; GetItemPath's errors pass through; it succeeds exactly when CreateFolder can, and the item path then resolves to the result; only media folders are added |
| `MediaCreator.FileCreatedOptions` | src/Sitecore.Support.90405/MediaCreator.cs:181-184 | file-based exactly when the file is larger than the database maximum or uploads go to files; otherwise the file-based context's options |
| `MediaCreator.FileCreated` | src/Sitecore.Support.90405/MediaCreator.cs:167-188 | an empty path is refused; a folder becomes a media folder at its item path; a file becomes a media-written item under the file-based rule |
| `MediaCreator.FileDeleted` | src/Sitecore.Support.90405/MediaCreator.cs:196-199 | passes exactly for a non-empty path, and otherwise fails with ArgumentEmpty("filePath") |
| `MediaCreator.Renamed` | src/Sitecore.Support.90405/MediaCreator.cs:227-231 | the new name and the new extension in the language; everything else kept |
| `MediaCreator.FileRenamed` | src/Sitecore.Support.90405/MediaCreator.cs:210-234 | both paths required; an item path error passes through; an old path with no item leaves everything unchanged; otherwise only that item changes, renamed and re-extended |
| `Uploader.FileEntries` | src/Sitecore.Support.90405/MediaUploader.cs:213-215 | exactly the entries that are not directories |
| `Uploader.FileEntriesConcat` | src/Sitecore.Support.90405/MediaUploader.cs:213-215 | the file entries of two entry lists joined are those of the first followed by those of the second, so archive order and repeats are kept |
| `Uploader.FileEntriesSingle` | src/Sitecore.Support.90405/MediaUploader.cs:215 | a single entry gives itself when it is a file and nothing when it is a directory |
| `Uploader.EntryPathsOfFiles` | src/Sitecore.Support.90405/MediaUploader.cs:213-219 | one upload path per file entry, in archive order: the folder joined with the entry's name |
| `Uploader.UploadPathsCount` | src/Sitecore.Support.90405/MediaUploader.cs:149-162 | an unpacked archive gives one upload per file entry; any other file gives one; every path starts with the folder |
| `Uploader.ZipIgnoresCase` | src/Sitecore.Support.90405/MediaUploader.cs:152 | `images/Photos.ZIP` is treated as a zip archive |
| `Uploader.ZipOnlyLastExtension` | src/Sitecore.Support.90405/MediaUploader.cs:152 | `photos.zip.jpg` is not a zip archive |
| `Uploader.ZipNeedsDot` | src/Sitecore.Support.90405/MediaUploader.cs:152 | `zip` is not a zip archive |
| `Uploader.MediaUploader.constructor` | src/Sitecore.Support.90405/MediaUploader.cs:21-25 | a new uploader has no file, no language, an empty folder and every flag off |
| `Uploader.MediaUploader.SetFile` | src/Sitecore.Support.90405/MediaUploader.cs:53-57 | null is refused and the file kept; otherwise the file is replaced |
| `Uploader.MediaUploader.SetFolder` | src/Sitecore.Support.90405/MediaUploader.cs:70-74 | null is refused and the folder kept; otherwise the folder is replaced |
| `Uploader.MediaUploader.SetLanguage` | src/Sitecore.Support.90405/MediaUploader.cs:107-111 | null is refused and the language kept; otherwise the language is replaced |
| `Uploader.MediaUploader.Upload` | src/Sitecore.Support.90405/MediaUploader.cs:149-162 | without a file, NullReference; an unpacked archive yields fresh, distinct results, one per file entry; any other file yields one result whose item is media-written for its path; only those items and new folders change |
| `Uploader.MediaUploader.UploadOne` | src/Sitecore.Support.90405/MediaUploader.cs:170-195 | a fresh result with the path, the proposed media path, and the item CreateFromStream wrote there |
| `Uploader.MediaUploader.UploadToDatabase` | src/Sitecore.Support.90405/MediaUploader.cs:167-199 | one result for the folder joined with the file name, its item media-written with the uploader's options and the alternate text |
| `Uploader.MediaUploader.UnpackToDatabase` | src/Sitecore.Support.90405/MediaUploader.cs:204-254 | one fresh result per file entry, in archive order, each with its path, proposed media path and item |
| `Uploader.MediaUploader.UnpackEntry` | src/Sitecore.Support.90405/MediaUploader.cs:213-246 | a directory entry adds nothing; a file entry appends one fresh result and keeps the earlier ones |
| `Uploader.MediaUploader.UploadArchived` | src/Sitecore.Support.90405/MediaUploader.cs:217-243 | a fresh result for the entry's path, its proposed media path, and an item of the database that holds the media CreateFromStream writes for the path with the entry's options: the proposed media path as destination, the uploader's language, versioned, overwrite and file-based flags, and no alternate text |
| `Uploader.MediaUploader.UploadEntry` | src/Sitecore.Support.90405/MediaUploader.cs:217-243 | one fresh result appended after the earlier ones, which are kept; the list stays distinct and matched to its paths; the new result's item holds the media written for the entry with the entry's options |
| `Uploader.MediaUploader.Appended` | src/Sitecore.Support.90405/MediaUploader.cs:218 | appending a new result keeps the list matched to its paths and distinct, and adds the result's item |
| `Save.Disk.CreateDirectory` | src/Sitecore.Support.90405/Save.cs:165 | an empty path is refused and nothing written; otherwise the directory is logged |
| `Save.UploadArgs.constructor` | src/Sitecore.Support.90405/Save.cs:28-66 | the request's settings as given; no properties, no error, not aborted, no uploaded items |
| `Save.FirstMalicious` | src/Sitecore.Support.90405/Save.cs:144-158 | the first entry whose name holds an invalid file-name character; None exactly when there is none |
| `Save.ScanEntries` | src/Sitecore.Support.90405/Save.cs:144-158 | the scan loop finds the first malicious entry |
| `Save.ExtractSticky` | src/Sitecore.Support.90405/Save.cs:160-180 | once an entry fails, later entries change nothing |
| `Save.ExtractFails` | src/Sitecore.Support.90405/Save.cs:160-180 | an extraction fails exactly when some entry cannot be written |
| `Save.EntryCreatedFiles` | src/Sitecore.Support.90405/Save.cs:162-178 | the writes for an entry create its file, if it is a file, and no other |
| `Save.ExtractedFiles` | src/Sitecore.Support.90405/Save.cs:160-180 | a complete extraction creates exactly one file per file entry, at its target, in archive order |
| `Save.CleanEntryKeepsName` | src/Sitecore.Support.90405/Save.cs:149-162 | an entry that passed the scan keeps its own name as file name, when overwriting |
| `Save.ExtractEntry` | src/Sitecore.Support.90405/Save.cs:162-178 | a directory entry creates its directory; a file entry creates its directory and then the file at its target; an empty directory path fails |
| `Save.ExtractEntries` | src/Sitecore.Support.90405/Save.cs:160-180 | the loop writes what Extract gives and stops with its error |
| `Save.UnpackToFile` | src/Sitecore.Support.90405/Save.cs:136-182 | a malicious archive writes nothing, sets the error text naming its first malicious entry, and aborts; any other is extracted as Extract states |
| `Save.UploadToFile` | src/Sitecore.Support.90405/Save.cs:190-202 | the file is saved once, beneath the folder under its own file name, made unique unless overwriting, and that name is returned |
| `Save.UnpackStepCases` | src/Sitecore.Support.90405/Save.cs:43 | a refused archive changes only the error text and the abort flag; any other only adds its extraction's writes |
| `Save.FileOnlySticky` | src/Sitecore.Support.90405/Save.cs:31-107 | once a posted file fails, later files change nothing |
| `Save.UnpackKeepsProperties` | src/Sitecore.Support.90405/Save.cs:43 | unpacking never changes the properties |
| `Save.LaterFileKeepsProperties` | src/Sitecore.Support.90405/Save.cs:48 | a posted file after the first never changes the properties |
| `Save.FirstFileProperties` | src/Sitecore.Support.90405/Save.cs:39-52 | the first file sets "filename" exactly when it has a name and is saved as it is |
| `Save.FilenameProperty` | src/Sitecore.Support.90405/Save.cs:31-52 | over a whole run, only the first posted file can set "filename", to the handle of the file it was saved to |
| `Save.MaliciousArchiveWritesNothing` | src/Sitecore.Support.90405/Save.cs:149-156 | a refused archive writes nothing, does not fail, aborts, and names a malicious entry in the error text |
| `Save.FileOnlyFile` | src/Sitecore.Support.90405/Save.cs:39-52 | the disk and the arguments end as FileOnlyStep gives |
| `Save.Recordable` | src/Sitecore.Support.90405/Save.cs:76-97 | the results before it have no workflow fault, and the one at it has |
| `Save.RecordableWithoutOverwrite` | src/Sitecore.Support.90405/Save.cs:83 | without overwriting every result is recorded |
| `Save.StartedWithin` | src/Sitecore.Support.90405/Save.cs:83-92 | workflows are started only for the given items, and none without overwriting |
| `Save.StartedExactly` | src/Sitecore.Support.90405/Save.cs:83-92 | an item's workflow is started exactly when overwriting, the item is among the given ones, and it names a default workflow |
| `Save.ItemsOf` | src/Sitecore.Support.90405/Save.cs:96 | one id per result, each its result's item |
| `Save.ProcessItem` | src/Sitecore.Support.90405/Save.cs:115-129 | the item is appended to the uploaded items |
| `Save.RecordOne` | src/Sitecore.Support.90405/Save.cs:83-96 | a missing workflow faults with nothing changed; otherwise the workflow is started when required and the item recorded |
| `Save.RecordResults` | src/Sitecore.Support.90405/Save.cs:76-97 | the results up to the first workflow fault are recorded, in order, with their workflows started; the fault, if any, is returned |
| `Save.RecordResultsRecorded` | src/Sitecore.Support.90405/Save.cs:76-97 | the recorded items are items of the database, and each started workflow belongs to a recorded item |
| `Save.RecordedTrans` | src/Sitecore.Support.90405/Save.cs:31-97 | two rounds of recording make one, as long as no item is deleted in between |
| `Save.ExpectedUploadsWithoutArchives` | src/Sitecore.Support.90405/Save.cs:31-97 | when no archive is unpacked, there is one upload per posted file with a name |
| `Save.UploadsOfPlain` | src/Sitecore.Support.90405/Save.cs:34-59 | a posted file that is not an unpacked archive is one upload if it has a name, none otherwise |
| `Save.Configure` | src/Sitecore.Support.90405/Save.cs:56-66 | the uploader gets the file, unpack flag and folder; a missing language faults; otherwise it also gets versioned, language, the file's alt text, overwrite and file-based |
| `Save.UploadAll` | src/Sitecore.Support.90405/Save.cs:68-71 | the results are listed against the file's upload paths: one per path, in order, each with the path, its proposed media path and an item of the database; no workflow is started |
| `Save.UploadPosted` | src/Sitecore.Support.90405/Save.cs:56-97 | a missing language faults with ArgumentNull("value"), changes nothing and leaves an empty round; otherwise the round holds the items of the results, listed against the upload paths, the uploaded items gain the round's items up to the first workflow fault in result order, and exactly their workflows are started when overwriting; when nothing faults, every result is recorded |
| `Save.UploadConfigured` | src/Sitecore.Support.90405/Save.cs:70-97 | a failed upload leaves an empty round and changes no record; otherwise the results are listed against the upload paths and recorded as RecordResults states, the round being their items in order |
| `Save.RecordRound` | src/Sitecore.Support.90405/Save.cs:76-97 | the results loop over an upload's results, given as a round of their items: recorded as RecordResults states; the fault is returned exactly when the round is not complete |
| `Save.NoResults` | src/Sitecore.Support.90405/Save.cs:56-71 | a posted file whose upload was not made or failed leaves an empty round that records nothing and starts no workflow |
| `Save.ProcessFile` | src/Sitecore.Support.90405/Save.cs:33-98 | file-system branch: as FileOnlyStep, with the database untouched; database branch: the disk untouched, and the file's round recorded as in UploadPosted, complete with as many items as the file calls for when nothing faults |
| `Save.UploadFile` | src/Sitecore.Support.90405/Save.cs:33-98 | a posted file without a name passes with an empty round; any other is UploadPosted for it |
| `Save.ProcessNext` | src/Sitecore.Support.90405/Save.cs:31-107 | one turn of the loop extends the file-system run by the next file, or the database run by the next file's round |
| `Save.NextRound` | src/Sitecore.Support.90405/Save.cs:31-107 | a recorded round for the next file extends the rounds, and a passing one keeps every round complete |
| `Save.RoundsDoneStep` | src/Sitecore.Support.90405/Save.cs:76-97 | uploaded items and workflow starts of the rounds, followed by those of one more round, are those of the extended rounds |
| `Save.AllUploadedCount` | src/Sitecore.Support.90405/Save.cs:31-97 | when every round is complete with as many items as its file calls for, the recorded items number what the posted files call for |
| `Save.Process` | src/Sitecore.Support.90405/Save.cs:28-107 | file-system branch: the disk and arguments end as FileOnlyRun, with the database untouched; database branch: the disk untouched, the uploaded items are exactly the rounds' recorded items in order and the started workflows exactly theirs; when nothing faults, one complete round per posted file and as many uploaded items as the files call for |

## Left out

- Streams and their contents are not modelled. This covers `SetStream`, `File.Open`, `HttpPostedFile.InputStream`, the entry streams, and the temporary zip file with its deletion. The disk logs the writes but stores no bytes.
- Locks (`FileUtil.GetFileLock`), `SecurityDisabler` and `SetContext` are left out: they change no modelled state.
- Logging and `Log.Audit` are left out: they write only to the log.
- The UI response to a malicious archive (`MaliciousFile`, `EscapeJavascriptString`) is left out: it only notifies the client.
- `MediaCreatorOptions.Build` is not modelled. The upload context leaves the options as set; the file-based context is a fixed value of the platform. FileCreated's FileBased flag is taken to survive that Build.
- There is one content database. `GetDatabase` and the Database property of MediaUploader and of the options are not modelled.
- GetFileBasedStreamPath only forwards to GetOutputFilePath, which is modelled. Its null checks have no counterpart, because the model has no null strings.
- `item.Reload()` and the re-reads of an item in another language are not modelled: an item is its entry in the database.
- `Path.GetDirectoryName` is modelled as FileUtil.GetParentPath.
- ToLowerInvariant lowers only the ASCII letters.
- ZipReader is the posted file's list of entries.
- A null alternate text (the uploader's default, and an archive entry's options) is the empty string. StringUtil.GetString treats both alike.
- Uploader.MediaUploader.UnpackToDatabase: states that each result refers to an item of the database, not that the item still holds the media written for its entry. Under Overwrite, a later entry with the same item path revises the earlier entry's item, so that fact holds only at the time of each entry. UploadEntry and UploadArchived state it there.
- Uploader.MediaUploader.Upload: for an unpacked archive, states the fresh results listed against the entries' paths but not the written media, for the reason given for UnpackToDatabase. For any other file it states the written media.
- Repository.ScanChild: compares item names exactly. Sitecore resolves item paths without regard to case, so a lookup that differs only in case finds nothing here.
- Save.Process: the rounds it returns are ghost values. ProcessFile ties each round to the results of that file's upload; Process states the uploaded items and the workflow starts in terms of the rounds.
- Save.RecordResults: takes the results' item ids rather than the result objects. A workflow that cannot be found faults as NullReference("workflow").
- Save.Process: stops at the first error, as the rethrow does. The request's later files are not processed.
- The workflow engine is not modelled. Starting a workflow is recorded; workflow states and commands are not.
- Item IDs are counter values rendered as GUIDs. Real GUIDs are random.
