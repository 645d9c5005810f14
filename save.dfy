/**
 * The Save processor of the upload pipeline: for every posted file with a
 * name, either write it (or the entries of its archive) to the file system,
 * or hand it to a MediaUploader and record the items it produced, starting
 * their default workflow when existing items may be overwritten.
 */
module Save {
  import opened Wrappers
  import opened Platform
  import opened Repository
  import opened MediaPaths
  import opened MediaCreator
  import opened UploadResult
  import opened Uploader

  /** UploadDestination: where the media's content is stored. */
  datatype Destination = ToDatabase | ToFile

  /** The writes that Save makes to the file system, in order. */
  datatype FileEvent =
    | SavedFile(path: string)                   // HttpPostedFile.SaveAs
    | CreatedDirectory(path: string)            // Directory.CreateDirectory
    | CreatedFile(path: string, entry: string)  // FileUtil.CreateFile from an archive entry

  /** The file system, as the log of the writes made to it. */
  class Disk {
    var events: seq<FileEvent>

    constructor ()
      ensures events == []
    {
      events := [];
    }

    method SaveAs(path: string)
      modifies this
      ensures events == old(events) + [SavedFile(path)]
    {
      events := events + [SavedFile(path)];
    }

    /** Directory.CreateDirectory: refuses an empty path. */
    method CreateDirectory(path: string) returns (r: Outcome<Error>)
      modifies this
      ensures path == "" ==> r == Fail(ArgumentEmpty("path")) && events == old(events)
      ensures path != "" ==> r == Pass && events == old(events) + [CreatedDirectory(path)]
    {
      if path == "" {
        return Fail(ArgumentEmpty("path"));
      }
      events := events + [CreatedDirectory(path)];
      r := Pass;
    }

    method CreateFile(path: string, entry: string)
      modifies this
      ensures events == old(events) + [CreatedFile(path, entry)]
    {
      events := events + [CreatedFile(path, entry)];
    }
  }

  /** UploadArgs: the request's settings and the results the processor leaves in it. */
  class UploadArgs {
    var files: seq<PostedFile>
    var fileOnly: bool
    var unpack: bool
    var folder: string
    var versioned: bool
    var language: Option<Language>
    var overwrite: bool
    var destination: Destination
    /** The "alt" parameter posted with each file, by file name. */
    var alternateTexts: map<string, string>
    var properties: map<string, string>
    var errorText: string
    var aborted: bool
    var uploadedItems: seq<nat>

    constructor (files: seq<PostedFile>, fileOnly: bool, unpack: bool, folder: string, versioned: bool,
                 language: Option<Language>, overwrite: bool, destination: Destination, alternateTexts: map<string, string>)
      ensures this.files == files && this.fileOnly == fileOnly && this.unpack == unpack && this.folder == folder
      ensures this.versioned == versioned && this.language == language && this.overwrite == overwrite
      ensures this.destination == destination && this.alternateTexts == alternateTexts
      ensures properties == map[] && errorText == "" && !aborted && uploadedItems == []
    {
      this.files := files;
      this.fileOnly := fileOnly;
      this.unpack := unpack;
      this.folder := folder;
      this.versioned := versioned;
      this.language := language;
      this.overwrite := overwrite;
      this.destination := destination;
      this.alternateTexts := alternateTexts;
      properties := map[];
      errorText := "";
      aborted := false;
      uploadedItems := [];
    }

    /** GetFileParameter(fileName, "alt"), empty when none was posted. */
    function AlternateText(fileName: string): string
      reads this
    {
      if fileName in alternateTexts then alternateTexts[fileName] else ""
    }
  }

  // ---------------------------------------------------------------------
  // Archives written to the file system
  // ---------------------------------------------------------------------

  /** The entry name holds a character that is invalid in a Windows file name. */
  predicate Malicious(name: string) {
    exists i :: 0 <= i < |name| && InvalidFileNameChar(name[i])
  }

  /** The first malicious entry of the archive, if any. */
  function FirstMalicious(entries: seq<ZipEntry>): (r: Option<nat>)
    ensures r.Some? ==> r.value < |entries| && Malicious(entries[r.value].name)
    ensures r.Some? ==> forall j :: 0 <= j < r.value ==> !Malicious(entries[j].name)
    ensures r.None? <==> forall j :: 0 <= j < |entries| ==> !Malicious(entries[j].name)
  {
    if entries == [] then None
    else if Malicious(entries[0].name) then Some(0)
    else match FirstMalicious(entries[1..])
      case None => None
      case Some(k) => Some(k + 1)
  }

  /** The error text for an archive refused because of `entryName`. */
  function MaliciousMessage(fileName: string, entryName: string): string {
    "The \"" + fileName + "\" file was not uploaded because it contains malicious file: \"" + entryName + "\""
  }

  /** The file a posted file or an archive entry is written to: beneath the folder, made unique unless overwriting. */
  function Target(env: Platform, folder: string, overwrite: bool, name: string): string {
    var path := MakePath(folder, name, '\\');
    if overwrite then path else env.getUniqueFilename(path)
  }

  /** The writes for one archive entry, or the error that stops the extraction. */
  function EntryEvents(env: Platform, folder: string, overwrite: bool, e: ZipEntry): Result<seq<FileEvent>, Error> {
    if e.isDirectory then
      var path := MakePath(folder, e.name, '\\');
      if path == "" then Failure(ArgumentEmpty("path")) else Success([CreatedDirectory(path)])
    else
      var target := Target(env, folder, overwrite, e.name);
      var directory := GetParentPath(target);
      if directory == "" then Failure(ArgumentEmpty("path"))
      else Success([CreatedDirectory(directory), CreatedFile(target, e.name)])
  }

  /** The writes an extraction made, and the error that stopped it, if any. */
  datatype Extraction = Extraction(events: seq<FileEvent>, error: Option<Error>)

  function OutcomeOf(error: Option<Error>): Outcome<Error> {
    if error.None? then Pass else Fail(error.value)
  }

  /** One more entry of an extraction: nothing once it has failed, otherwise the entry's writes or its error. */
  function Continue(prev: Extraction, step: Result<seq<FileEvent>, Error>): Extraction {
    if prev.error.Some? then prev
    else match step
      case Success(ev) => Extraction(prev.events + ev, None)
      case Failure(e) => Extraction(prev.events, Some(e))
  }

  /** Extracting the entries in order, stopping at the first that fails. */
  function Extract(env: Platform, folder: string, overwrite: bool, entries: seq<ZipEntry>): Extraction {
    if entries == [] then Extraction([], None)
    else Continue(Extract(env, folder, overwrite, entries[..|entries| - 1]), EntryEvents(env, folder, overwrite, entries[|entries| - 1]))
  }

  lemma ExtractStep(env: Platform, folder: string, overwrite: bool, entries: seq<ZipEntry>, i: nat)
    requires i < |entries|
    ensures Extract(env, folder, overwrite, entries[..i + 1]) ==
      Continue(Extract(env, folder, overwrite, entries[..i]), EntryEvents(env, folder, overwrite, entries[i]))
  {
    assert entries[..i + 1][..i] == entries[..i];
  }

  /** Once an extraction has failed, later entries change nothing. */
  lemma {:induction false} ExtractSticky(env: Platform, folder: string, overwrite: bool, entries: seq<ZipEntry>, i: nat)
    requires i <= |entries|
    requires Extract(env, folder, overwrite, entries[..i]).error.Some?
    ensures Extract(env, folder, overwrite, entries) == Extract(env, folder, overwrite, entries[..i])
    decreases |entries| - i
  {
    if i < |entries| {
      var p := entries[..|entries| - 1];
      assert entries[..i] == p[..i];
      ExtractSticky(env, folder, overwrite, p, i);
    } else {
      assert entries[..i] == entries;
    }
  }

  /** An extraction fails exactly when one of the entries cannot be written. */
  lemma {:induction false} ExtractFails(env: Platform, folder: string, overwrite: bool, entries: seq<ZipEntry>)
    ensures Extract(env, folder, overwrite, entries).error.Some? <==>
      exists j :: 0 <= j < |entries| && EntryEvents(env, folder, overwrite, entries[j]).Failure?
  {
    if entries != [] {
      var p := entries[..|entries| - 1];
      ExtractFails(env, folder, overwrite, p);
      if exists j :: 0 <= j < |p| && EntryEvents(env, folder, overwrite, p[j]).Failure? {
        var j :| 0 <= j < |p| && EntryEvents(env, folder, overwrite, p[j]).Failure?;
        assert entries[j] == p[j];
      }
      if exists j :: 0 <= j < |entries| && EntryEvents(env, folder, overwrite, entries[j]).Failure? {
        var j :| 0 <= j < |entries| && EntryEvents(env, folder, overwrite, entries[j]).Failure?;
        if j < |p| {
          assert p[j] == entries[j];
        }
      }
    }
  }

  /** The files created by a run of writes, in order. */
  function CreatedFiles(events: seq<FileEvent>): seq<FileEvent> {
    if events == [] then []
    else CreatedFiles(events[..|events| - 1]) + (if events[|events| - 1].CreatedFile? then [events[|events| - 1]] else [])
  }

  lemma {:induction false} CreatedFilesConcat(a: seq<FileEvent>, b: seq<FileEvent>)
    ensures CreatedFiles(a + b) == CreatedFiles(a) + CreatedFiles(b)
    decreases |b|
  {
    if b != [] {
      var b' := b[..|b| - 1];
      assert (a + b)[..|a + b| - 1] == a + b';
      CreatedFilesConcat(a, b');
    } else {
      assert a + b == a;
    }
  }

  /** The created file of a file entry, at its target. */
  function EntryFile(env: Platform, folder: string, overwrite: bool, e: ZipEntry): FileEvent {
    CreatedFile(Target(env, folder, overwrite, e.name), e.name)
  }

  /** One created file per file entry, at its target, in archive order. */
  function FileTargets(env: Platform, folder: string, overwrite: bool, files: seq<ZipEntry>): seq<FileEvent> {
    if files == [] then []
    else FileTargets(env, folder, overwrite, files[..|files| - 1]) + [EntryFile(env, folder, overwrite, files[|files| - 1])]
  }

  /** The writes for one entry create its file, if it is one, and no other. */
  lemma EntryCreatedFiles(env: Platform, folder: string, overwrite: bool, e: ZipEntry)
    requires EntryEvents(env, folder, overwrite, e).Success?
    ensures CreatedFiles(EntryEvents(env, folder, overwrite, e).value) ==
      if e.isDirectory then [] else [EntryFile(env, folder, overwrite, e)]
  {
    var ev := EntryEvents(env, folder, overwrite, e).value;
    if e.isDirectory {
      assert ev[..0] == [];
    } else {
      var target := Target(env, folder, overwrite, e.name);
      assert ev == [CreatedDirectory(GetParentPath(target)), CreatedFile(target, e.name)];
      assert ev[..1][..0] == [];
      assert ev[..1] == [ev[0]];
      assert CreatedFiles(ev[..1]) == [];
      assert ev[1] == EntryFile(env, folder, overwrite, e);
    }
  }

  /** A complete extraction creates exactly one file per file entry, each at its target, in archive order. */
  lemma {:induction false} ExtractedFiles(env: Platform, folder: string, overwrite: bool, entries: seq<ZipEntry>)
    requires Extract(env, folder, overwrite, entries).error.None?
    ensures CreatedFiles(Extract(env, folder, overwrite, entries).events) == FileTargets(env, folder, overwrite, FileEntries(entries))
  {
    if entries != [] {
      var p := entries[..|entries| - 1];
      var e := entries[|entries| - 1];
      var prev := Extract(env, folder, overwrite, p);
      var step := EntryEvents(env, folder, overwrite, e);
      assert prev.error.None? && step.Success?;
      ExtractedFiles(env, folder, overwrite, p);
      CreatedFilesConcat(prev.events, step.value);
      EntryCreatedFiles(env, folder, overwrite, e);
      var fs := FileEntries(p);
      assert FileEntries(entries) == fs + (if e.isDirectory then [] else [e]);
      if !e.isDirectory {
        assert (fs + [e])[..|fs|] == fs;
      } else {
        assert fs + [] == fs;
      }
    }
  }

  /** An entry that passed the scan is extracted, when overwriting, under its own name. */
  lemma CleanEntryKeepsName(folder: string, name: string)
    requires name != "" && !Malicious(name)
    ensures GetFileName(MakePath(folder, name, '\\')) == name
  {
    var r := MakePath(folder, name, '\\');
    var x := if folder == "" then "" else if folder[|folder| - 1] == '\\' then folder else folder + "\\";
    assert !InvalidFileNameChar(name[0]);
    assert r == x + name;
    forall j | |x| <= j < |r|
      ensures !IsSeparator(r[j])
    {
      assert r[j] == name[j - |x|];
      assert !InvalidFileNameChar(name[j - |x|]);
    }
    assert x != "" ==> IsSeparator(r[|x| - 1]);
    assert LastSeparator(r) == |x| - 1;
    assert r[|x|..] == name;
  }

  /** The scan loop of UnpackToFile: the first malicious entry, if any. */
  method ScanEntries(entries: seq<ZipEntry>) returns (r: Option<nat>)
    ensures r == FirstMalicious(entries)
  {
    var k := 0;
    while k < |entries|
      invariant k <= |entries|
      invariant forall j :: 0 <= j < k ==> !Malicious(entries[j].name)
    {
      if Malicious(entries[k].name) {
        return Some(k);
      }
      k := k + 1;
    }
    return None;
  }

  /** One entry of the extraction loop: a directory is created, a file is created in its directory. */
  method ExtractEntry(env: Platform, folder: string, overwrite: bool, disk: Disk, e: ZipEntry) returns (r: Outcome<Error>)
    modifies disk
    ensures var step := EntryEvents(env, folder, overwrite, e);
      && r == (if step.Success? then Pass else Fail(step.error))
      && disk.events == old(disk.events) + (if step.Success? then step.value else [])
  {
    var path := MakePath(folder, e.name, '\\');
    if e.isDirectory {
      r := disk.CreateDirectory(path);
    } else {
      if !overwrite {
        path := env.getUniqueFilename(path);
      }
      r := disk.CreateDirectory(GetParentPath(path));
      if r.Pass? {
        disk.CreateFile(path, e.name);
      }
    }
  }

  /** Extending a clean extraction: by the entry's writes, or by its error. */
  lemma ContinueClean(prev: Extraction, step: Result<seq<FileEvent>, Error>)
    requires prev.error.None?
    ensures Continue(prev, step) ==
      if step.Success? then Extraction(prev.events + step.value, None) else Extraction(prev.events, Some(step.error))
  { }

  /** One round of the extraction loop: the entry at index `i` extends a clean extraction of the entries before it. */
  method ExtractNext(env: Platform, folder: string, overwrite: bool, disk: Disk, entries: seq<ZipEntry>, i: nat,
                     ghost events0: seq<FileEvent>)
    returns (r: Outcome<Error>)
    requires i < |entries|
    requires disk.events == events0 + Extract(env, folder, overwrite, entries[..i]).events
    requires Extract(env, folder, overwrite, entries[..i]).error.None?
    modifies disk
    ensures disk.events == events0 + Extract(env, folder, overwrite, entries[..i + 1]).events
    ensures r == OutcomeOf(Extract(env, folder, overwrite, entries[..i + 1]).error)
  {
    ExtractStep(env, folder, overwrite, entries, i);
    ContinueClean(Extract(env, folder, overwrite, entries[..i]), EntryEvents(env, folder, overwrite, entries[i]));
    r := ExtractEntry(env, folder, overwrite, disk, entries[i]);
  }

  /** The extraction loop of UnpackToFile. */
  method ExtractEntries(env: Platform, folder: string, overwrite: bool, disk: Disk, entries: seq<ZipEntry>)
    returns (r: Outcome<Error>)
    modifies disk
    ensures disk.events == old(disk.events) + Extract(env, folder, overwrite, entries).events
    ensures r == OutcomeOf(Extract(env, folder, overwrite, entries).error)
  {
    for i := 0 to |entries|
      invariant disk.events == old(disk.events) + Extract(env, folder, overwrite, entries[..i]).events
      invariant Extract(env, folder, overwrite, entries[..i]).error.None?
    {
      r := ExtractNext(env, folder, overwrite, disk, entries, i, old(disk.events));
      if r.Fail? {
        ExtractSticky(env, folder, overwrite, entries, i + 1);
        return;
      }
    }
    assert entries[..|entries|] == entries;
    r := Pass;
  }

  /**
   * Save.UnpackToFile: an archive with a malicious entry is refused as a
   * whole, with the error text set and the pipeline aborted; otherwise its
   * entries are written beneath the folder.
   */
  method UnpackToFile(env: Platform, args: UploadArgs, disk: Disk, file: PostedFile) returns (r: Outcome<Error>)
    modifies args`errorText, args`aborted, disk
    ensures FirstMalicious(file.entries).Some? ==>
      && r == Pass && disk.events == old(disk.events) && args.aborted
      && args.errorText == MaliciousMessage(file.fileName, file.entries[FirstMalicious(file.entries).value].name)
    ensures FirstMalicious(file.entries).None? ==>
      && args.errorText == old(args.errorText) && args.aborted == old(args.aborted)
      && disk.events == old(disk.events) + Extract(env, args.folder, args.overwrite, file.entries).events
      && r == OutcomeOf(Extract(env, args.folder, args.overwrite, file.entries).error)
  {
    var bad := ScanEntries(file.entries);
    if bad.Some? {
      args.errorText := MaliciousMessage(file.fileName, file.entries[bad.value].name);
      args.aborted := true;
      return Pass;
    }
    r := ExtractEntries(env, args.folder, args.overwrite, disk, file.entries);
  }

  /** Save.UploadToFile: the posted file saved beneath the folder under its own file name. */
  method UploadToFile(env: Platform, args: UploadArgs, disk: Disk, file: PostedFile) returns (name: string)
    modifies disk
    ensures name == Target(env, args.folder, args.overwrite, GetFileName(file.fileName))
    ensures disk.events == old(disk.events) + [SavedFile(name)]
  {
    name := MakePath(args.folder, GetFileName(file.fileName), '\\');
    if !args.overwrite {
      name := env.getUniqueFilename(name);
    }
    disk.SaveAs(name);
  }

  // ---------------------------------------------------------------------
  // The file-system branch of Process, as a function of the posted files
  // ---------------------------------------------------------------------

  /** What the file-system branch changes: the disk and three properties of the arguments. */
  datatype FileState = FileState(events: seq<FileEvent>, properties: map<string, string>, errorText: string, aborted: bool)

  datatype FileRun = FileRun(state: FileState, error: Option<Error>)

  /** UnpackToFile as a step: a refused archive sets the error text and aborts, any other is extracted. */
  function UnpackStep(env: Platform, folder: string, overwrite: bool, f: PostedFile, st: FileState): FileRun {
    var (written, errorText, aborted, error) :=
      match FirstMalicious(f.entries)
      case Some(k) => ([], MaliciousMessage(f.fileName, f.entries[k].name), true, None)
      case None =>
        var x := Extract(env, folder, overwrite, f.entries);
        (x.events, st.errorText, st.aborted, x.error);
    FileRun(FileState(st.events + written, st.properties, errorText, aborted), error)
  }

  /** UnpackStep case by case: a refused archive only sets the error text and aborts; any other adds its extraction's writes. */
  lemma UnpackStepCases(env: Platform, folder: string, overwrite: bool, f: PostedFile, st: FileState)
    ensures var run := UnpackStep(env, folder, overwrite, f, st);
      match FirstMalicious(f.entries)
      case Some(k) => run == FileRun(st.(errorText := MaliciousMessage(f.fileName, f.entries[k].name), aborted := true), None)
      case None =>
        var x := Extract(env, folder, overwrite, f.entries);
        run == FileRun(st.(events := st.events + x.events), x.error)
  {
    match FirstMalicious(f.entries)
    case Some(k) =>
      assert st.events + [] == st.events;
    case None =>
  }

  /** UploadToFile as a step: the file is saved, and for the first posted file its handle becomes the "filename" property. */
  function SaveStep(env: Platform, folder: string, overwrite: bool, f: PostedFile, i: nat, st: FileState): FileRun {
    var name := Target(env, folder, overwrite, GetFileName(f.fileName));
    var properties := if i == 0 then st.properties["filename" := env.fileHandle(name)] else st.properties;
    FileRun(st.(events := st.events + [SavedFile(name)], properties := properties), None)
  }

  /** The file-system branch for the posted file at index `i`. */
  function FileOnlyStep(env: Platform, folder: string, overwrite: bool, unpack: bool, f: PostedFile, i: nat, st: FileState): FileRun {
    if f.fileName == "" then FileRun(st, None)
    else if env.isUnpack(unpack, f.fileName) then UnpackStep(env, folder, overwrite, f, st)
    else SaveStep(env, folder, overwrite, f, i, st)
  }

  /** One more posted file of the file-system branch: nothing once a file has failed. */
  function FileOnlyNext(env: Platform, folder: string, overwrite: bool, unpack: bool, prev: FileRun, f: PostedFile, i: nat): FileRun {
    if prev.error.Some? then prev else FileOnlyStep(env, folder, overwrite, unpack, f, i, prev.state)
  }

  /** The file-system branch over the posted files in order, stopping at the first error. */
  function FileOnlyRun(env: Platform, folder: string, overwrite: bool, unpack: bool, files: seq<PostedFile>, st: FileState): FileRun {
    if files == [] then FileRun(st, None)
    else FileOnlyNext(env, folder, overwrite, unpack, FileOnlyRun(env, folder, overwrite, unpack, files[..|files| - 1], st),
                      files[|files| - 1], |files| - 1)
  }

  lemma FileOnlyRunStep(env: Platform, folder: string, overwrite: bool, unpack: bool, files: seq<PostedFile>, st: FileState, i: nat)
    requires i < |files|
    ensures FileOnlyRun(env, folder, overwrite, unpack, files[..i + 1], st) ==
      FileOnlyNext(env, folder, overwrite, unpack, FileOnlyRun(env, folder, overwrite, unpack, files[..i], st), files[i], i)
  {
    assert files[..i + 1][..i] == files[..i];
  }

  /** Once a file has failed, later files change nothing. */
  lemma {:induction false} FileOnlySticky(env: Platform, folder: string, overwrite: bool, unpack: bool,
                                          files: seq<PostedFile>, st: FileState, i: nat)
    requires i <= |files|
    requires FileOnlyRun(env, folder, overwrite, unpack, files[..i], st).error.Some?
    ensures FileOnlyRun(env, folder, overwrite, unpack, files, st) == FileOnlyRun(env, folder, overwrite, unpack, files[..i], st)
    decreases |files| - i
  {
    if i < |files| {
      var p := files[..|files| - 1];
      assert files[..i] == p[..i];
      FileOnlySticky(env, folder, overwrite, unpack, p, st, i);
    } else {
      assert files[..i] == files;
    }
  }

  /** Unpacking an archive to the file system never changes the properties. */
  lemma UnpackKeepsProperties(env: Platform, folder: string, overwrite: bool, f: PostedFile, st: FileState)
    ensures UnpackStep(env, folder, overwrite, f, st).state.properties == st.properties
  { }

  /** A posted file after the first never changes the properties. */
  lemma LaterFileKeepsProperties(env: Platform, folder: string, overwrite: bool, unpack: bool, f: PostedFile, i: nat, st: FileState)
    requires i != 0
    ensures FileOnlyStep(env, folder, overwrite, unpack, f, i, st).state.properties == st.properties
  {
    if f.fileName != "" && env.isUnpack(unpack, f.fileName) {
      UnpackKeepsProperties(env, folder, overwrite, f, st);
    }
  }

  /** The first posted file sets the "filename" property exactly when it has a name and is saved as it is. */
  lemma FirstFileProperties(env: Platform, folder: string, overwrite: bool, unpack: bool, f: PostedFile, st: FileState)
    ensures FileOnlyStep(env, folder, overwrite, unpack, f, 0, st).state.properties ==
      if f.fileName != "" && !env.isUnpack(unpack, f.fileName)
      then st.properties["filename" := env.fileHandle(Target(env, folder, overwrite, GetFileName(f.fileName)))]
      else st.properties
  {
    if f.fileName != "" && env.isUnpack(unpack, f.fileName) {
      UnpackKeepsProperties(env, folder, overwrite, f, st);
    }
  }

  /**
   * Only the first posted file sets the "filename" property, and only when
   * it has a name and is saved as it is; it then holds the handle of the
   * file it was saved to.
   */
  lemma {:induction false} FilenameProperty(env: Platform, folder: string, overwrite: bool, unpack: bool,
                                            files: seq<PostedFile>, st: FileState)
    ensures FileOnlyRun(env, folder, overwrite, unpack, files, st).state.properties ==
      if files != [] && files[0].fileName != "" && !env.isUnpack(unpack, files[0].fileName)
      then st.properties["filename" := env.fileHandle(Target(env, folder, overwrite, GetFileName(files[0].fileName)))]
      else st.properties
  {
    if files != [] {
      var p := files[..|files| - 1];
      var prev := FileOnlyRun(env, folder, overwrite, unpack, p, st);
      if p == [] {
        assert prev == FileRun(st, None);
        FirstFileProperties(env, folder, overwrite, unpack, files[0], st);
      } else {
        FilenameProperty(env, folder, overwrite, unpack, p, st);
        assert p[0] == files[0];
        if prev.error.None? {
          LaterFileKeepsProperties(env, folder, overwrite, unpack, files[|files| - 1], |files| - 1, prev.state);
        }
      }
    }
  }

  /** A refused archive writes nothing and leaves the error text naming its first malicious entry. */
  lemma MaliciousArchiveWritesNothing(env: Platform, folder: string, overwrite: bool, unpack: bool,
                                      f: PostedFile, i: nat, st: FileState)
    requires f.fileName != "" && env.isUnpack(unpack, f.fileName)
    requires exists j :: 0 <= j < |f.entries| && Malicious(f.entries[j].name)
    ensures var run := FileOnlyStep(env, folder, overwrite, unpack, f, i, st);
      && run.error.None? && run.state.events == st.events && run.state.aborted
      && exists k :: 0 <= k < |f.entries| && Malicious(f.entries[k].name)
           && run.state.errorText == MaliciousMessage(f.fileName, f.entries[k].name)
  {
    assert FirstMalicious(f.entries).Some?;
  }

  /** The part of the arguments and the disk that the file-system branch changes. */
  function FileStateOf(disk: Disk, args: UploadArgs): FileState
    reads disk, args
  {
    FileState(disk.events, args.properties, args.errorText, args.aborted)
  }

  /** The file-system branch of Process for one posted file with a name. */
  method FileOnlyFile(env: Platform, args: UploadArgs, disk: Disk, f: PostedFile, i: nat) returns (r: Outcome<Error>)
    requires f.fileName != ""
    modifies args`properties, args`errorText, args`aborted, disk
    ensures var run := FileOnlyStep(env, args.folder, args.overwrite, args.unpack, f, i, old(FileStateOf(disk, args)));
      FileStateOf(disk, args) == run.state && r == OutcomeOf(run.error)
  {
    if env.isUnpack(args.unpack, f.fileName) {
      ghost var st := FileStateOf(disk, args);
      r := UnpackToFile(env, args, disk, f);
      UnpackStepCases(env, args.folder, args.overwrite, f, st);
    } else {
      var name := UploadToFile(env, args, disk, f);
      if i == 0 {
        args.properties := args.properties["filename" := env.fileHandle(name)];
      }
      r := Pass;
    }
  }

  // ---------------------------------------------------------------------
  // The database branch of Process
  // ---------------------------------------------------------------------

  /** The configuration is kept and no item is deleted. */
  twostate predicate Kept(db: Database)
    reads db
  {
    && db.Valid()
    && (forall j :: j in old(db.items) ==> j in db.items)
    && db.languages == old(db.languages) && db.templates == old(db.templates)
    && db.standardValues == old(db.standardValues)
  }

  /** The default workflow of item `id`: its own field or its template's standard value ("" for no item). */
  function WorkflowOf(items: Items, standardValues: map<string, map<string, string>>, id: nat): string {
    if id in items then FieldValue(items[id], standardValues, DefaultWorkflowField) else ""
  }

  /** Starting the workflow of item `id` faults: overwriting, a workflow is named, and it does not exist. */
  predicate MissingWorkflow(env: Platform, items: Items, standardValues: map<string, map<string, string>>, overwrite: bool, id: nat) {
    overwrite && WorkflowOf(items, standardValues, id) != "" && !env.hasWorkflow(WorkflowOf(items, standardValues, id))
  }

  /** How many results are recorded before the first workflow fault. */
  function Recordable(env: Platform, items: Items, standardValues: map<string, map<string, string>>, overwrite: bool, ids: seq<nat>): (k: nat)
    ensures k <= |ids|
    ensures forall j {:trigger MissingWorkflow(env, items, standardValues, overwrite, ids[j])} :: 0 <= j < k ==> !MissingWorkflow(env, items, standardValues, overwrite, ids[j])
    ensures k < |ids| ==> MissingWorkflow(env, items, standardValues, overwrite, ids[k])
  {
    if ids == [] then 0
    else if MissingWorkflow(env, items, standardValues, overwrite, ids[0]) then 0
    else 1 + Recordable(env, items, standardValues, overwrite, ids[1..])
  }

  /** Without overwriting no workflow is started, so every result is recorded. */
  lemma {:induction false} RecordableWithoutOverwrite(env: Platform, items: Items, standardValues: map<string, map<string, string>>, ids: seq<nat>)
    ensures Recordable(env, items, standardValues, false, ids) == |ids|
  {
    if ids != [] {
      RecordableWithoutOverwrite(env, items, standardValues, ids[1..]);
    }
  }

  /** The workflow started for item `id`: its own, when overwriting and it names one. */
  function StartsFor(items: Items, standardValues: map<string, map<string, string>>, overwrite: bool, id: nat): seq<nat> {
    if overwrite && WorkflowOf(items, standardValues, id) != "" then [id] else []
  }

  /** The items whose default workflow is started, in order. */
  function Started(items: Items, standardValues: map<string, map<string, string>>, overwrite: bool, ids: seq<nat>): (r: seq<nat>)
  {
    if ids == [] then []
    else Started(items, standardValues, overwrite, ids[..|ids| - 1]) + StartsFor(items, standardValues, overwrite, ids[|ids| - 1])
  }

  /** Only the given items have their workflow started, and none without overwriting. */
  lemma {:induction false} StartedWithin(items: Items, standardValues: map<string, map<string, string>>, overwrite: bool, ids: seq<nat>)
    ensures forall x :: x in Started(items, standardValues, overwrite, ids) ==> x in ids
    ensures !overwrite ==> Started(items, standardValues, overwrite, ids) == []
  {
    if ids != [] {
      StartedWithin(items, standardValues, overwrite, ids[..|ids| - 1]);
    }
  }

  /** An item's workflow is started exactly when overwriting, the item is given, and it names a default workflow. */
  lemma {:induction false} StartedExactly(items: Items, standardValues: map<string, map<string, string>>, overwrite: bool, ids: seq<nat>, x: nat)
    ensures x in Started(items, standardValues, overwrite, ids) <==> overwrite && x in ids && WorkflowOf(items, standardValues, x) != ""
  {
    if ids != [] {
      var init, last := ids[..|ids| - 1], ids[|ids| - 1];
      StartedExactly(items, standardValues, overwrite, init, x);
      assert ids == init + [last];
      assert x in ids <==> x in init || x == last;
      assert x in StartsFor(items, standardValues, overwrite, last) <==>
        overwrite && x == last && WorkflowOf(items, standardValues, x) != "";
    }
  }

  lemma StartedStep(items: Items, standardValues: map<string, map<string, string>>, overwrite: bool, ids: seq<nat>, i: nat)
    requires i < |ids|
    ensures Started(items, standardValues, overwrite, ids[..i + 1]) ==
      Started(items, standardValues, overwrite, ids[..i]) + StartsFor(items, standardValues, overwrite, ids[i])
  {
    assert ids[..i + 1][..i] == ids[..i];
  }

  /** The item ids of a list of upload results. */
  function ItemsOf(rs: seq<MediaUploadResult>): (ids: seq<nat>)
    requires forall k :: 0 <= k < |rs| ==> rs[k].item.Some?
    reads rs
    ensures |ids| == |rs| && forall k :: 0 <= k < |rs| ==> rs[k].item == Some(ids[k])
  {
    if rs == [] then [] else ItemsOf(rs[..|rs| - 1]) + [rs[|rs| - 1].item.value]
  }

  /** Save.ProcessItem: the uploaded item recorded in the arguments. */
  method ProcessItem(args: UploadArgs, id: nat)
    modifies args`uploadedItems
    ensures args.uploadedItems == old(args.uploadedItems) + [id]
  {
    args.uploadedItems := args.uploadedItems + [id];
  }

  /** One upload result of Process: its default workflow started when overwriting, then the item recorded. */
  method RecordOne(env: Platform, db: Database, args: UploadArgs, id: nat) returns (r: Outcome<Error>)
    requires id in db.items
    modifies db`workflowStarts, args`uploadedItems
    ensures MissingWorkflow(env, db.items, db.standardValues, args.overwrite, id) ==>
      && r == Fail(NullReference("workflow"))
      && args.uploadedItems == old(args.uploadedItems) && db.workflowStarts == old(db.workflowStarts)
    ensures !MissingWorkflow(env, db.items, db.standardValues, args.overwrite, id) ==>
      && r == Pass
      && args.uploadedItems == old(args.uploadedItems) + [id]
      && db.workflowStarts == old(db.workflowStarts) + StartsFor(db.items, db.standardValues, args.overwrite, id)
  {
    if args.overwrite {
      var workflowId := FieldValue(db.items[id], db.standardValues, DefaultWorkflowField);
      if workflowId != "" {
        if !env.hasWorkflow(workflowId) {
          return Fail(NullReference("workflow"));
        }
        db.StartWorkflow(id);
      }
    }
    ProcessItem(args, id);
    r := Pass;
  }

  /**
   * The state of the results loop after the first `i` results: none of them
   * faulted, each was recorded, and their workflows were started.
   */
  predicate RecordedUpTo(env: Platform, items: Items, standardValues: map<string, map<string, string>>, overwrite: bool, ids: seq<nat>, i: nat,
                         u0: seq<nat>, u: seq<nat>, w0: seq<nat>, w: seq<nat>) {
    && i <= |ids|
    && (forall j {:trigger MissingWorkflow(env, items, standardValues, overwrite, ids[j])} :: 0 <= j < i ==> !MissingWorkflow(env, items, standardValues, overwrite, ids[j]))
    && u == u0 + ids[..i]
    && w == w0 + Started(items, standardValues, overwrite, ids[..i])
  }

  /** Recording one more result that does not fault extends the loop's state by it. */
  lemma RecordedUpToStep(env: Platform, items: Items, standardValues: map<string, map<string, string>>, overwrite: bool, ids: seq<nat>, i: nat,
                         u0: seq<nat>, u: seq<nat>, w0: seq<nat>, w: seq<nat>)
    requires RecordedUpTo(env, items, standardValues, overwrite, ids, i, u0, u, w0, w)
    requires i < |ids| && !MissingWorkflow(env, items, standardValues, overwrite, ids[i])
    ensures RecordedUpTo(env, items, standardValues, overwrite, ids, i + 1, u0, u + [ids[i]], w0, w + StartsFor(items, standardValues, overwrite, ids[i]))
  {
    StartedStep(items, standardValues, overwrite, ids, i);
    assert ids[..i + 1] == ids[..i] + [ids[i]];
  }

  /** The loop stops at the first fault or at the end, which is where Recordable points. */
  lemma RecordedUpToExit(env: Platform, items: Items, standardValues: map<string, map<string, string>>, overwrite: bool, ids: seq<nat>, i: nat,
                         u0: seq<nat>, u: seq<nat>, w0: seq<nat>, w: seq<nat>)
    requires RecordedUpTo(env, items, standardValues, overwrite, ids, i, u0, u, w0, w)
    requires i == |ids| || MissingWorkflow(env, items, standardValues, overwrite, ids[i])
    ensures Recordable(env, items, standardValues, overwrite, ids) == i
  { }

  /**
   * The loop of Process over the upload results, given by their items:
   * when overwriting, the default workflow of each item is started (a
   * missing workflow faults), and then the item is recorded.
   */
  method RecordResults(env: Platform, db: Database, args: UploadArgs, ids: seq<nat>) returns (r: Outcome<Error>)
    requires forall j :: 0 <= j < |ids| ==> ids[j] in db.items
    modifies db`workflowStarts, args`uploadedItems
    ensures var k := Recordable(env, db.items, db.standardValues, args.overwrite, ids);
      && args.uploadedItems == old(args.uploadedItems) + ids[..k]
      && db.workflowStarts == old(db.workflowStarts) + Started(db.items, db.standardValues, args.overwrite, ids[..k])
      && r == (if k == |ids| then Pass else Fail(NullReference("workflow")))
  {
    for i := 0 to |ids|
      invariant RecordedUpTo(env, db.items, db.standardValues, args.overwrite, ids, i,
                             old(args.uploadedItems), args.uploadedItems, old(db.workflowStarts), db.workflowStarts)
    {
      ghost var u, w := args.uploadedItems, db.workflowStarts;
      r := RecordOne(env, db, args, ids[i]);
      if r.Fail? {
        RecordedUpToExit(env, db.items, db.standardValues, args.overwrite, ids, i, old(args.uploadedItems), u, old(db.workflowStarts), w);
        return;
      }
      RecordedUpToStep(env, db.items, db.standardValues, args.overwrite, ids, i, old(args.uploadedItems), u, old(db.workflowStarts), w);
    }
    RecordedUpToExit(env, db.items, db.standardValues, args.overwrite, ids, |ids|,
                     old(args.uploadedItems), args.uploadedItems, old(db.workflowStarts), db.workflowStarts);
    r := Pass;
  }

  /**
   * What the database branch leaves behind: the recorded items grow, every
   * newly recorded item is in the database, and every newly started
   * workflow belongs to a newly recorded item (none without overwriting).
   */
  predicate Recorded(u0: seq<nat>, u: seq<nat>, w0: seq<nat>, w: seq<nat>, items: Items, overwrite: bool) {
    && u0 <= u && w0 <= w
    && (forall x :: x in u[|u0|..] ==> x in items)
    && (forall x :: x in w[|w0|..] ==> x in u[|u0|..])
    && (!overwrite ==> w == w0)
  }

  /** The results loop, run over items of the database, leaves what Recorded describes. */
  lemma RecordResultsRecorded(env: Platform, items: Items, standardValues: map<string, map<string, string>>, overwrite: bool, ids: seq<nat>,
                              u0: seq<nat>, u: seq<nat>, w0: seq<nat>, w: seq<nat>)
    requires forall j :: 0 <= j < |ids| ==> ids[j] in items
    requires var k := Recordable(env, items, standardValues, overwrite, ids);
      u == u0 + ids[..k] && w == w0 + Started(items, standardValues, overwrite, ids[..k])
    ensures Recorded(u0, u, w0, w, items, overwrite)
  {
    var k := Recordable(env, items, standardValues, overwrite, ids);
    StartedWithin(items, standardValues, overwrite, ids[..k]);
    assert u[|u0|..] == ids[..k];
    assert w[|w0|..] == Started(items, standardValues, overwrite, ids[..k]);
  }

  /** Two rounds of recording make one, as long as no item is deleted in between. */
  lemma RecordedTrans(u0: seq<nat>, u1: seq<nat>, u2: seq<nat>, w0: seq<nat>, w1: seq<nat>, w2: seq<nat>,
                      items1: Items, items2: Items, overwrite: bool)
    requires Recorded(u0, u1, w0, w1, items1, overwrite) && Recorded(u1, u2, w1, w2, items2, overwrite)
    requires forall j :: j in items1 ==> j in items2
    ensures Recorded(u0, u2, w0, w2, items2, overwrite)
  {
    assert u2[|u0|..] == u1[|u0|..] + u2[|u1|..];
    assert w2[|w0|..] == w1[|w0|..] + w2[|w1|..];
  }

  /**
   * One posted file of the database branch: the items its upload produced,
   * in result order, and the database those results were recorded against.
   */
  datatype Round = Round(ids: seq<nat>, items: Items)

  /** The items of a round that the results loop records: those before the first workflow fault. */
  function Recording(env: Platform, standardValues: map<string, map<string, string>>, overwrite: bool, rd: Round): seq<nat> {
    rd.ids[..Recordable(env, rd.items, standardValues, overwrite, rd.ids)]
  }

  /** No result of the round faulted, so all of its items are recorded. */
  predicate Complete(env: Platform, standardValues: map<string, map<string, string>>, overwrite: bool, rd: Round) {
    Recordable(env, rd.items, standardValues, overwrite, rd.ids) == |rd.ids|
  }

  /** The results loop of one round appended its recorded items, and started the workflows of those items. */
  predicate RoundDone(env: Platform, standardValues: map<string, map<string, string>>, overwrite: bool, rd: Round,
                      u0: seq<nat>, u: seq<nat>, w0: seq<nat>, w: seq<nat>) {
    && u == u0 + Recording(env, standardValues, overwrite, rd)
    && w == w0 + Started(rd.items, standardValues, overwrite, Recording(env, standardValues, overwrite, rd))
  }

  /**
   * The database branch for one posted file: the round's items are those of
   * the upload's results, which are listed against the file's upload paths
   * unless there are none (the upload was not made or failed), and the
   * results loop recorded the round.
   */
  predicate FileRecorded(env: Platform, standardValues: map<string, map<string, string>>, overwrite: bool, paths: seq<string>,
                         rs: seq<MediaUploadResult>, rd: Round, u0: seq<nat>, u: seq<nat>, w0: seq<nat>, w: seq<nat>)
    reads rs
  {
    && (rs == [] || MediaUploader.Listed(env, rd.items, rs, paths))
    && rd.ids == ItemsOf(rs)
    && RoundDone(env, standardValues, overwrite, rd, u0, u, w0, w)
  }

  /** The items recorded over the rounds, round after round. */
  function RecordedIds(env: Platform, standardValues: map<string, map<string, string>>, overwrite: bool, rounds: seq<Round>): seq<nat> {
    if rounds == [] then []
    else RecordedIds(env, standardValues, overwrite, rounds[..|rounds| - 1]) + Recording(env, standardValues, overwrite, rounds[|rounds| - 1])
  }

  /** The workflows started over the rounds, round after round, each against its own round's database. */
  function StartedIds(env: Platform, standardValues: map<string, map<string, string>>, overwrite: bool, rounds: seq<Round>): seq<nat> {
    if rounds == [] then []
    else
      var last := rounds[|rounds| - 1];
      StartedIds(env, standardValues, overwrite, rounds[..|rounds| - 1])
        + Started(last.items, standardValues, overwrite, Recording(env, standardValues, overwrite, last))
  }

  /** The recorded items and the started workflows are exactly those of the rounds, in order. */
  predicate RoundsDone(env: Platform, standardValues: map<string, map<string, string>>, overwrite: bool, rounds: seq<Round>,
                       u0: seq<nat>, u: seq<nat>, w0: seq<nat>, w: seq<nat>) {
    && u == u0 + RecordedIds(env, standardValues, overwrite, rounds)
    && w == w0 + StartedIds(env, standardValues, overwrite, rounds)
  }

  /** One more round recorded after the others extends the rounds by it. */
  lemma RoundsDoneStep(env: Platform, standardValues: map<string, map<string, string>>, overwrite: bool, rounds: seq<Round>, rd: Round,
                       u0: seq<nat>, u1: seq<nat>, u2: seq<nat>, w0: seq<nat>, w1: seq<nat>, w2: seq<nat>)
    requires RoundsDone(env, standardValues, overwrite, rounds, u0, u1, w0, w1)
    requires RoundDone(env, standardValues, overwrite, rd, u1, u2, w1, w2)
    ensures RoundsDone(env, standardValues, overwrite, rounds + [rd], u0, u2, w0, w2)
  {
    assert (rounds + [rd])[..|rounds|] == rounds;
  }

  /** One complete round per posted file, each with as many items as that file calls for. */
  predicate AllUploaded(env: Platform, standardValues: map<string, map<string, string>>, overwrite: bool,
                        files: seq<PostedFile>, folder: string, unpack: bool, rounds: seq<Round>) {
    && |rounds| == |files|
    && forall j :: 0 <= j < |rounds| ==>
         Complete(env, standardValues, overwrite, rounds[j]) && |rounds[j].ids| == Uploads(env, files[j], folder, unpack)
  }

  /** A complete round with the next file's uploads extends a run in which every earlier round was complete. */
  lemma AllUploadedStep(env: Platform, standardValues: map<string, map<string, string>>, overwrite: bool,
                        files: seq<PostedFile>, folder: string, unpack: bool, rounds: seq<Round>, rd: Round, i: nat)
    requires i < |files| && AllUploaded(env, standardValues, overwrite, files[..i], folder, unpack, rounds)
    requires Complete(env, standardValues, overwrite, rd) && |rd.ids| == Uploads(env, files[i], folder, unpack)
    ensures AllUploaded(env, standardValues, overwrite, files[..i + 1], folder, unpack, rounds + [rd])
  { }

  /** When every round is complete, every item of every round is recorded: as many as the posted files call for. */
  lemma {:induction false} AllUploadedCount(env: Platform, standardValues: map<string, map<string, string>>, overwrite: bool,
                                            files: seq<PostedFile>, folder: string, unpack: bool, rounds: seq<Round>)
    requires AllUploaded(env, standardValues, overwrite, files, folder, unpack, rounds)
    ensures |RecordedIds(env, standardValues, overwrite, rounds)| == ExpectedUploads(env, files, folder, unpack)
  {
    if rounds != [] {
      var last := rounds[|rounds| - 1];
      AllUploadedCount(env, standardValues, overwrite, files[..|files| - 1], folder, unpack, rounds[..|rounds| - 1]);
      assert Recording(env, standardValues, overwrite, last) == last.ids;
    }
  }

  /**
   * The state of the database branch of Process after the first `i` posted
   * files: one round each, recorded in order, and all complete with every
   * upload each file calls for when no file failed.
   */
  predicate DatabaseRun(env: Platform, standardValues: map<string, map<string, string>>, overwrite: bool,
                        files: seq<PostedFile>, folder: string, unpack: bool, i: nat, rounds: seq<Round>, items: Items,
                        u0: seq<nat>, u: seq<nat>, w0: seq<nat>, w: seq<nat>, passed: bool) {
    && i <= |files| && |rounds| == i
    && Recorded(u0, u, w0, w, items, overwrite)
    && RoundsDone(env, standardValues, overwrite, rounds, u0, u, w0, w)
    && (passed ==> AllUploaded(env, standardValues, overwrite, files[..i], folder, unpack, rounds))
  }

  /**
   * What the database branch leaves for one posted file whose upload paths
   * are `paths`: its round is recorded as FileRecorded states, against the
   * database `items`; when it passes the round is complete with `n` items,
   * and a round that is not complete ends in the workflow fault.
   */
  predicate FileDone(env: Platform, standardValues: map<string, map<string, string>>, overwrite: bool, paths: seq<string>, n: nat,
                     rs: seq<MediaUploadResult>, rd: Round, items: Items, u0: seq<nat>, u: seq<nat>, w0: seq<nat>, w: seq<nat>,
                     r: Outcome<Error>)
    reads rs
  {
    && rd.items == items
    && Recorded(u0, u, w0, w, items, overwrite)
    && FileRecorded(env, standardValues, overwrite, paths, rs, rd, u0, u, w0, w)
    && (r.Pass? ==> Complete(env, standardValues, overwrite, rd) && |rd.ids| == n)
    && (!Complete(env, standardValues, overwrite, rd) ==> r == Fail(NullReference("workflow")))
  }

  /** One more posted file of the database branch extends the run by its round. */
  lemma NextRound(env: Platform, standardValues: map<string, map<string, string>>, overwrite: bool,
                  files: seq<PostedFile>, folder: string, unpack: bool, i: nat, rounds: seq<Round>, rd: Round,
                  items1: Items, items2: Items, u0: seq<nat>, u1: seq<nat>, u2: seq<nat>, w0: seq<nat>, w1: seq<nat>, w2: seq<nat>,
                  r: Outcome<Error>)
    requires i < |files| && DatabaseRun(env, standardValues, overwrite, files, folder, unpack, i, rounds, items1, u0, u1, w0, w1, true)
    requires Recorded(u1, u2, w1, w2, items2, overwrite) && RoundDone(env, standardValues, overwrite, rd, u1, u2, w1, w2)
    requires forall j :: j in items1 ==> j in items2
    requires r.Pass? ==> Complete(env, standardValues, overwrite, rd) && |rd.ids| == Uploads(env, files[i], folder, unpack)
    ensures DatabaseRun(env, standardValues, overwrite, files, folder, unpack, i + 1, rounds + [rd], items2, u0, u2, w0, w2, r.Pass?)
  {
    RecordedTrans(u0, u1, u2, w0, w1, w2, items1, items2, overwrite);
    RoundsDoneStep(env, standardValues, overwrite, rounds, rd, u0, u1, u2, w0, w1, w2);
    if r.Pass? {
      AllUploadedStep(env, standardValues, overwrite, files, folder, unpack, rounds, rd, i);
    }
  }

  /** The number of uploads the database branch makes for one posted file. */
  function Uploads(env: Platform, f: PostedFile, folder: string, unpack: bool): nat {
    if f.fileName == "" then 0 else |UploadPaths(f, folder, env.isUnpack(unpack, f.fileName))|
  }

  /** The number of uploads the database branch makes for the posted files. */
  function ExpectedUploads(env: Platform, files: seq<PostedFile>, folder: string, unpack: bool): nat {
    if files == [] then 0
    else ExpectedUploads(env, files[..|files| - 1], folder, unpack) + Uploads(env, files[|files| - 1], folder, unpack)
  }

  lemma ExpectedUploadsStep(env: Platform, files: seq<PostedFile>, folder: string, unpack: bool, i: nat)
    requires i < |files|
    ensures ExpectedUploads(env, files[..i + 1], folder, unpack) ==
      ExpectedUploads(env, files[..i], folder, unpack) + Uploads(env, files[i], folder, unpack)
  {
    assert files[..i + 1][..i] == files[..i];
  }

  /** The number of posted files with a name. */
  function NamedFiles(files: seq<PostedFile>): nat {
    if files == [] then 0
    else NamedFiles(files[..|files| - 1]) + (if files[|files| - 1].fileName == "" then 0 else 1)
  }

  /** When no archive is unpacked, every posted file with a name is one upload. */
  lemma {:induction false} ExpectedUploadsWithoutArchives(env: Platform, files: seq<PostedFile>, folder: string, unpack: bool)
    requires forall j :: 0 <= j < |files| ==> !(IsZip(files[j].fileName) && env.isUnpack(unpack, files[j].fileName))
    ensures ExpectedUploads(env, files, folder, unpack) == NamedFiles(files)
  {
    if files != [] {
      var p := files[..|files| - 1];
      var f := files[|files| - 1];
      ExpectedUploadsWithoutArchives(env, p, folder, unpack);
      UploadsOfPlain(env, f, folder, unpack);
    }
  }

  /** A posted file that is not an unpacked archive is one upload if it has a name, and none otherwise. */
  lemma UploadsOfPlain(env: Platform, f: PostedFile, folder: string, unpack: bool)
    requires !(IsZip(f.fileName) && env.isUnpack(unpack, f.fileName))
    ensures Uploads(env, f, folder, unpack) == if f.fileName == "" then 0 else 1
  {
    UploadPathsCount(f, folder, env.isUnpack(unpack, f.fileName));
  }

  /**
   * The uploader Process configures for one posted file, property by
   * property; the Language setter refuses a missing language.
   */
  method Configure(env: Platform, args: UploadArgs, f: PostedFile) returns (u: MediaUploader, r: Outcome<Error>)
    ensures fresh(u)
    ensures r == (if args.language.None? then Fail(ArgumentNull("value")) else Pass)
    ensures u.file == Some(f) && u.unpack == env.isUnpack(args.unpack, f.fileName) && u.folder == args.folder
    ensures r.Pass? ==>
      && u.versioned == args.versioned && u.language == args.language
      && u.alternateText == args.AlternateText(f.fileName) && u.overwrite == args.overwrite
      && u.fileBased == (args.destination == ToFile)
  {
    u := new MediaUploader();
    var _ := u.SetFile(Some(f));
    u.unpack := env.isUnpack(args.unpack, f.fileName);
    var _ := u.SetFolder(Some(args.folder));
    u.versioned := args.versioned;
    r := u.SetLanguage(args.language);
    if r.Fail? {
      return;
    }
    u.alternateText := args.AlternateText(f.fileName);
    u.overwrite := args.overwrite;
    u.fileBased := args.destination == ToFile;
  }

  /** MediaUploader.Upload as the database branch sees it: results listed against the upload paths. */
  method UploadAll(env: Platform, settings: Settings, db: Database, uploader: MediaUploader)
    returns (r: Result<seq<MediaUploadResult>, Error>)
    requires db.Valid() && uploader.file.Some?
    modifies db
    ensures Kept(db) && db.workflowStarts == old(db.workflowStarts)
    ensures r.Success? ==> MediaUploader.Listed(env, db.items, r.value, UploadPaths(uploader.file.value, uploader.folder, uploader.unpack))
  {
    r := uploader.Upload(env, settings, db);
  }

  /**
   * The database branch of Process for one posted file with a name. The
   * ghost results and round name what the upload produced and what the
   * results loop recorded of it.
   */
  method UploadPosted(env: Platform, settings: Settings, db: Database, args: UploadArgs, f: PostedFile)
    returns (r: Outcome<Error>, ghost rs: seq<MediaUploadResult>, ghost round: Round)
    requires db.Valid()
    modifies db, args`uploadedItems
    ensures Kept(db)
    ensures args.language.None? ==>
      r == Fail(ArgumentNull("value")) && db.items == old(db.items) && args.uploadedItems == old(args.uploadedItems) && rs == []
    ensures FileDone(env, db.standardValues, args.overwrite, UploadPaths(f, args.folder, env.isUnpack(args.unpack, f.fileName)),
                     |UploadPaths(f, args.folder, env.isUnpack(args.unpack, f.fileName))|, rs, round, db.items,
                     old(args.uploadedItems), args.uploadedItems, old(db.workflowStarts), db.workflowStarts, r)
  {
    var uploader, configured := Configure(env, args, f);
    if configured.Fail? {
      rs, round := [], Round([], db.items);
      NoResults(env, db.standardValues, args.overwrite, UploadPaths(f, args.folder, env.isUnpack(args.unpack, f.fileName)),
                |UploadPaths(f, args.folder, env.isUnpack(args.unpack, f.fileName))|, db.items, args.uploadedItems, db.workflowStarts, configured);
      return configured, rs, round;
    }
    r, rs, round := UploadConfigured(env, settings, db, args, uploader);
  }

  /** The upload by a configured uploader, then the loop over its results. */
  method UploadConfigured(env: Platform, settings: Settings, db: Database, args: UploadArgs, uploader: MediaUploader)
    returns (r: Outcome<Error>, ghost rs: seq<MediaUploadResult>, ghost round: Round)
    requires db.Valid() && uploader.file.Some?
    modifies db, args`uploadedItems
    ensures Kept(db)
    ensures FileDone(env, db.standardValues, args.overwrite, UploadPaths(uploader.file.value, uploader.folder, uploader.unpack),
                     |UploadPaths(uploader.file.value, uploader.folder, uploader.unpack)|, rs, round, db.items,
                     old(args.uploadedItems), args.uploadedItems, old(db.workflowStarts), db.workflowStarts, r)
    ensures r.Pass? ==> MediaUploader.Listed(env, round.items, rs, UploadPaths(uploader.file.value, uploader.folder, uploader.unpack))
  {
    var results := UploadAll(env, settings, db, uploader);
    if results.Failure? {
      rs, round := [], Round([], db.items);
      r := Fail(results.error);
      NoResults(env, db.standardValues, args.overwrite, UploadPaths(uploader.file.value, uploader.folder, uploader.unpack),
                |UploadPaths(uploader.file.value, uploader.folder, uploader.unpack)|, db.items, args.uploadedItems, db.workflowStarts, r);
      return;
    }
    rs := results.value;
    r, round := RecordRound(env, db, args, results.value, UploadPaths(uploader.file.value, uploader.folder, uploader.unpack));
  }

  /** A posted file whose upload was not made, or failed, leaves an empty round that records nothing. */
  lemma NoResults(env: Platform, standardValues: map<string, map<string, string>>, overwrite: bool, paths: seq<string>, n: nat,
                  items: Items, u: seq<nat>, w: seq<nat>, r: Outcome<Error>)
    requires r.Pass? ==> n == 0
    ensures FileDone(env, standardValues, overwrite, paths, n, [], Round([], items), items, u, u, w, w, r)
  {
    assert u + [] == u && w + [] == w;
  }

  /** The loop over the results of a successful upload, given by their items, as one round. */
  method RecordRound(env: Platform, db: Database, args: UploadArgs, rs: seq<MediaUploadResult>, ghost paths: seq<string>)
    returns (r: Outcome<Error>, ghost round: Round)
    requires MediaUploader.Listed(env, db.items, rs, paths)
    modifies db`workflowStarts, args`uploadedItems
    ensures round.items == db.items && MediaUploader.Listed(env, round.items, rs, paths)
    ensures Recorded(old(args.uploadedItems), args.uploadedItems, old(db.workflowStarts), db.workflowStarts, db.items, args.overwrite)
    ensures FileRecorded(env, db.standardValues, args.overwrite, paths, rs, round,
                         old(args.uploadedItems), args.uploadedItems, old(db.workflowStarts), db.workflowStarts)
    ensures r == if Complete(env, db.standardValues, args.overwrite, round) then Pass else Fail(NullReference("workflow"))
  {
    var ids := ItemsOf(rs);
    round := Round(ids, db.items);
    ghost var u0, w0 := args.uploadedItems, db.workflowStarts;
    r := RecordResults(env, db, args, ids);
    assert ItemsOf(rs) == ids && MediaUploader.Listed(env, db.items, rs, paths);
    RecordResultsRecorded(env, db.items, db.standardValues, args.overwrite, ids, u0, args.uploadedItems, w0, db.workflowStarts);
  }

  // ---------------------------------------------------------------------
  // Process
  // ---------------------------------------------------------------------

  /** The loop body of Process: a posted file without a name is skipped, the others go to one of the branches. */
  method ProcessFile(env: Platform, settings: Settings, db: Database, disk: Disk, args: UploadArgs, i: nat)
    returns (r: Outcome<Error>, ghost rs: seq<MediaUploadResult>, ghost round: Round)
    requires db.Valid() && i < |args.files|
    modifies db, disk, args`uploadedItems, args`properties, args`errorText, args`aborted
    ensures Kept(db)
    ensures args.fileOnly ==>
      var step := FileOnlyStep(env, args.folder, args.overwrite, args.unpack, args.files[i], i, old(FileStateOf(disk, args)));
      && FileStateOf(disk, args) == step.state && r == OutcomeOf(step.error)
      && db.items == old(db.items) && db.workflowStarts == old(db.workflowStarts)
      && args.uploadedItems == old(args.uploadedItems)
    ensures !args.fileOnly ==>
      && FileStateOf(disk, args) == old(FileStateOf(disk, args))
      && FileDone(env, db.standardValues, args.overwrite, UploadPaths(args.files[i], args.folder, env.isUnpack(args.unpack, args.files[i].fileName)),
                  Uploads(env, args.files[i], args.folder, args.unpack), rs, round, db.items,
                  old(args.uploadedItems), args.uploadedItems, old(db.workflowStarts), db.workflowStarts, r)
  {
    rs, round := [], Round([], db.items);
    if args.fileOnly {
      var f := args.files[i];
      if f.fileName == "" {
        return Pass, rs, round;
      }
      r := FileOnlyFile(env, args, disk, f, i);
    } else {
      r, rs, round := UploadFile(env, settings, db, args, i);
    }
  }

  /** The database branch of the loop body of Process: a posted file without a name is skipped. */
  method UploadFile(env: Platform, settings: Settings, db: Database, args: UploadArgs, i: nat)
    returns (r: Outcome<Error>, ghost rs: seq<MediaUploadResult>, ghost round: Round)
    requires db.Valid() && i < |args.files|
    modifies db, args`uploadedItems
    ensures Kept(db)
    ensures FileDone(env, db.standardValues, args.overwrite, UploadPaths(args.files[i], args.folder, env.isUnpack(args.unpack, args.files[i].fileName)),
                     Uploads(env, args.files[i], args.folder, args.unpack), rs, round, db.items,
                     old(args.uploadedItems), args.uploadedItems, old(db.workflowStarts), db.workflowStarts, r)
  {
    var f := args.files[i];
    if f.fileName == "" {
      rs, round := [], Round([], db.items);
      assert Kept(db);
      NoResults(env, db.standardValues, args.overwrite, UploadPaths(f, args.folder, env.isUnpack(args.unpack, f.fileName)),
                Uploads(env, f, args.folder, args.unpack), db.items, args.uploadedItems, db.workflowStarts, Pass);
      return Pass, rs, round;
    }
    r, rs, round := UploadPosted(env, settings, db, args, f);
  }

  /**
   * One round of the loop of Process, carrying its state from the first `i`
   * posted files to the first `i + 1`: the file-system branch as a
   * FileOnlyRun state, the database branch as one more recorded round.
   */
  method ProcessNext(env: Platform, settings: Settings, db: Database, disk: Disk, args: UploadArgs, i: nat,
                     ghost st0: FileState, ghost u0: seq<nat>, ghost w0: seq<nat>, ghost items0: Items, ghost rounds: seq<Round>)
    returns (r: Outcome<Error>, ghost rounds': seq<Round>)
    requires db.Valid() && i < |args.files|
    requires args.fileOnly ==>
      && FileOnlyRun(env, args.folder, args.overwrite, args.unpack, args.files[..i], st0) == FileRun(FileStateOf(disk, args), None)
      && db.items == items0 && db.workflowStarts == w0 && args.uploadedItems == u0
    requires !args.fileOnly ==>
      && FileStateOf(disk, args) == st0
      && DatabaseRun(env, db.standardValues, args.overwrite, args.files, args.folder, args.unpack, i, rounds, db.items,
                     u0, args.uploadedItems, w0, db.workflowStarts, true)
    modifies db, disk, args`uploadedItems, args`properties, args`errorText, args`aborted
    ensures Kept(db)
    ensures args.fileOnly ==>
      var run := FileOnlyRun(env, args.folder, args.overwrite, args.unpack, args.files[..i + 1], st0);
      && FileStateOf(disk, args) == run.state && r == OutcomeOf(run.error)
      && db.items == items0 && db.workflowStarts == w0 && args.uploadedItems == u0
    ensures !args.fileOnly ==>
      && FileStateOf(disk, args) == st0
      && DatabaseRun(env, db.standardValues, args.overwrite, args.files, args.folder, args.unpack, i + 1, rounds', db.items,
                     u0, args.uploadedItems, w0, db.workflowStarts, r.Pass?)
  {
    ghost var u1, w1, items1 := args.uploadedItems, db.workflowStarts, db.items;
    ghost var rs, round;
    r, rs, round := ProcessFile(env, settings, db, disk, args, i);
    rounds' := rounds + [round];
    if args.fileOnly {
      FileOnlyRunStep(env, args.folder, args.overwrite, args.unpack, args.files, st0, i);
    } else {
      NextRound(env, db.standardValues, args.overwrite, args.files, args.folder, args.unpack, i, rounds, round,
                items1, db.items, u0, u1, args.uploadedItems, w0, w1, db.workflowStarts, r);
    }
  }

  /**
   * Save.Process. Posted files without a name are skipped. In the
   * file-system branch the disk and the arguments end as FileOnlyRun
   * states; in the database branch the recorded items and the started
   * workflows are exactly those of one round per posted file reached, in
   * order, and all of each file's uploads when nothing faults. The first
   * error ends the run.
   */
  method Process(env: Platform, settings: Settings, db: Database, disk: Disk, args: UploadArgs)
    returns (r: Outcome<Error>, ghost rounds: seq<Round>)
    requires db.Valid()
    modifies db, disk, args`uploadedItems, args`properties, args`errorText, args`aborted
    ensures Kept(db)
    ensures args.fileOnly ==>
      var run := FileOnlyRun(env, args.folder, args.overwrite, args.unpack, args.files, old(FileStateOf(disk, args)));
      && FileStateOf(disk, args) == run.state && r == OutcomeOf(run.error)
      && db.items == old(db.items) && db.workflowStarts == old(db.workflowStarts)
      && args.uploadedItems == old(args.uploadedItems)
    ensures !args.fileOnly ==>
      && FileStateOf(disk, args) == old(FileStateOf(disk, args))
      && Recorded(old(args.uploadedItems), args.uploadedItems, old(db.workflowStarts), db.workflowStarts, db.items, args.overwrite)
      && RoundsDone(env, db.standardValues, args.overwrite, rounds,
                    old(args.uploadedItems), args.uploadedItems, old(db.workflowStarts), db.workflowStarts)
      && |rounds| <= |args.files|
      && (r.Pass? ==> AllUploaded(env, db.standardValues, args.overwrite, args.files, args.folder, args.unpack, rounds))
      && (r.Pass? ==> |args.uploadedItems| == |old(args.uploadedItems)| + ExpectedUploads(env, args.files, args.folder, args.unpack))
  {
    ghost var st0 := FileStateOf(disk, args);
    rounds := [];
    for i := 0 to |args.files|
      invariant Kept(db)
      invariant args.fileOnly ==>
        && FileOnlyRun(env, args.folder, args.overwrite, args.unpack, args.files[..i], st0) == FileRun(FileStateOf(disk, args), None)
        && db.items == old(db.items) && db.workflowStarts == old(db.workflowStarts)
        && args.uploadedItems == old(args.uploadedItems)
      invariant !args.fileOnly ==>
        && FileStateOf(disk, args) == st0
        && DatabaseRun(env, db.standardValues, args.overwrite, args.files, args.folder, args.unpack, i, rounds, db.items,
                       old(args.uploadedItems), args.uploadedItems, old(db.workflowStarts), db.workflowStarts, true)
    {
      r, rounds := ProcessNext(env, settings, db, disk, args, i, st0, old(args.uploadedItems), old(db.workflowStarts), old(db.items), rounds);
      if r.Fail? {
        if args.fileOnly {
          FileOnlySticky(env, args.folder, args.overwrite, args.unpack, args.files, st0, i + 1);
        }
        return;
      }
    }
    assert args.files[..|args.files|] == args.files;
    if !args.fileOnly {
      AllUploadedCount(env, db.standardValues, args.overwrite, args.files, args.folder, args.unpack, rounds);
    }
    r := Pass;
  }
}
