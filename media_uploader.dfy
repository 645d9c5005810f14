/**
 * MediaUploader: uploads one posted file into the media library, either as
 * one media item or, for a zip archive with unpacking requested, as one
 * media item per file entry of the archive. Every item is written through
 * MediaCreator.CreateFromStream with the upload's proposed media path as its
 * destination.
 */
module Uploader {
  import opened Wrappers
  import opened Platform
  import opened Repository
  import opened MediaPaths
  import opened MediaCreator
  import opened UploadResult

  /** An entry of a zip archive, as ZipReader lists it. */
  datatype ZipEntry = ZipEntry(name: string, isDirectory: bool)

  /** A posted file: its client-side name and, when read as a zip archive, its entries. */
  datatype PostedFile = PostedFile(fileName: string, entries: seq<ZipEntry>)

  /** The file's extension is ".zip", compared without regard to case. */
  predicate IsZip(fileName: string) {
    Lower(DotExtension(fileName)) == ".zip"
  }

  /** The entries that are files rather than directories, in archive order. */
  function FileEntries(entries: seq<ZipEntry>): (r: seq<ZipEntry>)
    ensures |r| <= |entries|
    ensures forall k :: 0 <= k < |r| ==> !r[k].isDirectory && r[k] in entries
    ensures forall e :: e in entries && !e.isDirectory ==> e in r
  {
    if entries == [] then []
    else
      var last := entries[|entries| - 1];
      FileEntries(entries[..|entries| - 1]) + (if last.isDirectory then [] else [last])
  }

  /**
   * Filtering keeps the archive's order exactly: the file entries of two
   * runs of entries are those of the first followed by those of the second.
   */
  lemma {:induction false} FileEntriesConcat(a: seq<ZipEntry>, b: seq<ZipEntry>)
    ensures FileEntries(a + b) == FileEntries(a) + FileEntries(b)
    decreases |b|
  {
    if b == [] {
      assert a + b == a;
    } else {
      var last := b[|b| - 1];
      assert (a + b)[..|a + b| - 1] == a + b[..|b| - 1];
      FileEntriesConcat(a, b[..|b| - 1]);
      assert FileEntries(b) == FileEntries(b[..|b| - 1]) + (if last.isDirectory then [] else [last]);
    }
  }

  /** A single entry is kept exactly when it is not a directory. */
  lemma FileEntriesSingle(e: ZipEntry)
    ensures FileEntries([e]) == if e.isDirectory then [] else [e]
  {
    assert [e][..0] == [];
  }

  /** The upload path of each file entry: the entry's name joined to the folder with `/`. */
  function EntryPaths(folder: string, entries: seq<ZipEntry>): seq<string> {
    if entries == [] then []
    else
      var last := entries[|entries| - 1];
      EntryPaths(folder, entries[..|entries| - 1]) + (if last.isDirectory then [] else [MakePath(folder, last.name, '/')])
  }

  /** There is one upload path per file entry, beneath the folder, named after that entry. */
  lemma {:induction false} EntryPathsOfFiles(folder: string, entries: seq<ZipEntry>)
    ensures |EntryPaths(folder, entries)| == |FileEntries(entries)|
    ensures forall k :: 0 <= k < |EntryPaths(folder, entries)| ==>
      EntryPaths(folder, entries)[k] == MakePath(folder, FileEntries(entries)[k].name, '/')
      && folder <= EntryPaths(folder, entries)[k]
  {
    if entries != [] {
      EntryPathsOfFiles(folder, entries[..|entries| - 1]);
    }
  }

  /** The paths Upload writes under: one per file entry of an archive it unpacks, else one for the file itself. */
  function UploadPaths(f: PostedFile, folder: string, unpack: bool): seq<string> {
    if IsZip(f.fileName) && unpack then EntryPaths(folder, f.entries)
    else [MakePath(folder, GetFileName(f.fileName), '/')]
  }

  /** An archive is unpacked into as many uploads as it has file entries; any other file is one upload. */
  lemma UploadPathsCount(f: PostedFile, folder: string, unpack: bool)
    ensures IsZip(f.fileName) && unpack ==> |UploadPaths(f, folder, unpack)| == |FileEntries(f.entries)|
    ensures !(IsZip(f.fileName) && unpack) ==> |UploadPaths(f, folder, unpack)| == 1
    ensures forall p :: p in UploadPaths(f, folder, unpack) ==> folder <= p
  {
    EntryPathsOfFiles(folder, f.entries);
  }

  /** The case of the extension does not matter. */
  lemma ZipIgnoresCase()
    ensures IsZip("images/Photos.ZIP")
  {
    var a := "images/Photos.ZIP";
    assert LastSeparator(a) == 6 by { assert IsSeparator(a[6]); }
    assert GetFileName(a) == "Photos.ZIP";
    assert LastIndexOf("Photos.ZIP", '.') == 6 by { assert "Photos.ZIP"[6] == '.'; }
    assert Lower(".ZIP") == ".zip";
  }

  /** Only the last extension counts. */
  lemma ZipOnlyLastExtension()
    ensures !IsZip("photos.zip.jpg")
  {
    var b := "photos.zip.jpg";
    assert LastSeparator(b) == -1 by {
      assert forall j :: 0 <= j < |b| ==> !IsSeparator(b[j]);
    }
    assert GetFileName(b) == b;
    assert LastIndexOf(b, '.') == 10 by {
      assert b[10] == '.';
      assert forall j :: 10 < j < |b| ==> b[j] != '.';
    }
    assert DotExtension(b) == ".jpg";
    assert Lower(".jpg")[1] == 'j';
  }

  /** A name without a dot has no extension. */
  lemma ZipNeedsDot()
    ensures !IsZip("zip")
  {
    var c := "zip";
    assert LastSeparator(c) == -1 by {
      assert forall j :: 0 <= j < |c| ==> !IsSeparator(c[j]);
    }
    assert GetFileName(c) == c;
    assert LastIndexOf(c, '.') == -1 by {
      assert forall j :: 0 <= j < |c| ==> c[j] != '.';
    }
    assert DotExtension(c) == "";
  }

  /** No result object appears twice. */
  predicate Distinct(rs: seq<MediaUploadResult>) {
    forall j, k :: 0 <= j < k < |rs| ==> rs[j] != rs[k]
  }

  /** The upload paths of one more entry: those of the entries before it, and its own unless it is a directory. */
  lemma EntryPathsSnoc(folder: string, entries: seq<ZipEntry>, i: nat)
    requires i < |entries|
    ensures EntryPaths(folder, entries[..i + 1]) ==
      EntryPaths(folder, entries[..i]) + (if entries[i].isDirectory then [] else [MakePath(folder, entries[i].name, '/')])
  {
    assert entries[..i + 1][..i] == entries[..i];
  }

  /** The item ids that a list of upload results refers to. */
  function ItemIds(rs: seq<MediaUploadResult>): set<nat>
    reads rs
  {
    if rs == [] then {}
    else
      var last := rs[|rs| - 1];
      ItemIds(rs[..|rs| - 1]) + (if last.item.Some? then {last.item.value} else {})
  }

  /** No item of `a` is lost in `b`, and only the items `ids` were changed or added besides new media folders. */
  predicate TouchesAll(a: Items, b: Items, ids: set<nat>) {
    && (forall j :: j in a ==> j in b)
    && (forall j :: j in a && j !in ids ==> b[j] == a[j])
    && (forall j :: j in b && j !in a && j !in ids ==> b[j].template == MediaFolderTemplate)
  }

  /** Touching one more item after a run of uploads touches the run's items and that one. */
  lemma TouchesOneMore(a: Items, b: Items, c: Items, ids: set<nat>, id: nat)
    requires TouchesAll(a, b, ids) && Touches(b, c, Some(id))
    ensures TouchesAll(a, c, ids + {id})
  { }

  /** The item `id` of `items` holds the media that CreateFromStream writes for `path` with `options`. */
  predicate Written(env: Platform, settings: Settings, items: Items, languages: seq<Language>, templates: map<string, string>,
                    id: nat, path: string, options: Options)
  {
    && id in items
    && GetItemPath(env, settings, path, options).Success?
    && MediaWritten(items[id], id, env, settings, GetItemPath(env, settings, path, options).value,
                    path, options, languages, templates)
  }

  class MediaUploader {
    var alternateText: string
    var file: Option<PostedFile>
    var language: Option<Language>
    var folder: string
    var unpack: bool
    var versioned: bool
    var overwrite: bool
    var fileBased: bool

    /** A new uploader: no file and no language yet, the folder empty, every flag off. */
    constructor ()
      ensures alternateText == "" && file == None && language == None && folder == ""
      ensures !unpack && !versioned && !overwrite && !fileBased
    {
      alternateText := "";
      file := None;
      language := None;
      folder := "";
      unpack := false;
      versioned := false;
      overwrite := false;
      fileBased := false;
    }

    /** The File setter: refuses null. */
    method SetFile(value: Option<PostedFile>) returns (r: Outcome<Error>)
      modifies this`file
      ensures value.None? ==> r == Fail(ArgumentNull("value")) && file == old(file)
      ensures value.Some? ==> r == Pass && file == value
    {
      if value.None? {
        return Fail(ArgumentNull("value"));
      }
      file := value;
      r := Pass;
    }

    /** The Folder setter: refuses null. */
    method SetFolder(value: Option<string>) returns (r: Outcome<Error>)
      modifies this`folder
      ensures value.None? ==> r == Fail(ArgumentNull("value")) && folder == old(folder)
      ensures value.Some? ==> r == Pass && folder == value.value
    {
      if value.None? {
        return Fail(ArgumentNull("value"));
      }
      folder := value.value;
      r := Pass;
    }

    /** The Language setter: refuses null. */
    method SetLanguage(value: Option<Language>) returns (r: Outcome<Error>)
      modifies this`language
      ensures value.None? ==> r == Fail(ArgumentNull("value")) && language == old(language)
      ensures value.Some? ==> r == Pass && language == value
    {
      if value.None? {
        return Fail(ArgumentNull("value"));
      }
      language := value;
      r := Pass;
    }

    /**
     * The MediaCreatorOptions an upload passes to CreateFromStream: the
     * proposed media path as destination and the uploader's settings; an
     * archive entry carries no alternate text.
     */
    function OptionsFor(entry: bool, destination: string): Options
      reads this
    {
      Options(destination, false, overwrite, language, versioned, fileBased, "",
              if entry then "" else alternateText)
    }

    /**
     * The results hold, in order, one path each and the media path proposed
     * for it, and each refers to an item of the database.
     */
    static predicate Listed(env: Platform, items: Items, rs: seq<MediaUploadResult>, paths: seq<string>)
      reads rs
    {
      && |rs| == |paths|
      && forall k :: 0 <= k < |rs| ==>
           && rs[k].path == Some(paths[k])
           && rs[k].validMediaPath == Some(env.proposeValidUploadPath(paths[k]))
           && rs[k].item.Some? && rs[k].item.value in items
    }

    /**
     * The results are new, distinct objects, listed against the paths, and
     * the database changed only in their items and in new folders.
     */
    twostate predicate Produced(env: Platform, db: Database, new rs: seq<MediaUploadResult>, paths: seq<string>)
      reads db, rs
    {
      && (forall k :: 0 <= k < |rs| ==> fresh(rs[k]))
      && Distinct(rs)
      && Listed(env, db.items, rs, paths)
      && TouchesAll(old(db.items), db.items, ItemIds(rs))
    }

    /**
     * MediaUploader.Upload: a zip archive with unpacking requested is
     * unpacked, any other file is uploaded as it is. Without a file the
     * name lookup faults.
     */
    method Upload(env: Platform, settings: Settings, db: Database) returns (r: Result<seq<MediaUploadResult>, Error>)
      requires db.Valid()
      modifies db
      ensures SetupKept(db)
      ensures file.None? ==> r == Failure(NullReference("File")) && db.items == old(db.items)
      ensures r.Success? ==>
        && file.Some?
        && Produced(env, db, r.value, UploadPaths(file.value, folder, unpack))
        && (!(IsZip(file.value.fileName) && unpack) ==>
              var path := MakePath(folder, GetFileName(file.value.fileName), '/');
              Written(env, settings, db.items, db.languages, db.templates, r.value[0].item.value,
                      path, OptionsFor(false, env.proposeValidUploadPath(path))))
    {
      if file.None? {
        return Failure(NullReference("File"));
      }
      var f := file.value;
      if IsZip(f.fileName) && unpack {
        r := UnpackToDatabase(env, settings, db, f);
      } else {
        r := UploadToDatabase(env, settings, db, f);
      }
    }

    /**
     * One upload, common to both MediaUploader methods: a new result with
     * the path and its proposed media path, and the media item that
     * CreateFromStream writes there.
     */
    method UploadOne(env: Platform, settings: Settings, db: Database, path: string, options: Options)
      returns (r: Result<MediaUploadResult, Error>)
      requires db.Valid()
      requires options.destination == env.proposeValidUploadPath(path)
      modifies db
      ensures SetupKept(db)
      ensures r.Success? ==>
        && fresh(r.value)
        && r.value.path == Some(path)
        && r.value.validMediaPath == Some(options.destination)
        && r.value.item.Some?
        && Touches(old(db.items), db.items, r.value.item)
        && Written(env, settings, db.items, db.languages, db.templates, r.value.item.value, path, options)
    {
      var res := new MediaUploadResult();
      var _ := res.SetPath(Some(path));
      var _ := res.SetValidMediaPath(Some(options.destination));
      var id := CreateFromStream(env, settings, db, path, options);
      if id.Failure? {
        return Failure(id.error);
      }
      var _ := res.SetItem(Some(id.value));
      r := Success(res);
    }

    /** MediaUploader.UploadToDatabase: one media item for the file, named after its file name within the folder. */
    method UploadToDatabase(env: Platform, settings: Settings, db: Database, f: PostedFile)
      returns (r: Result<seq<MediaUploadResult>, Error>)
      requires db.Valid()
      modifies db
      ensures SetupKept(db)
      ensures r.Success? ==>
        && Produced(env, db, r.value, [MakePath(folder, GetFileName(f.fileName), '/')])
        && Written(env, settings, db.items, db.languages, db.templates, r.value[0].item.value,
                   MakePath(folder, GetFileName(f.fileName), '/'),
                   OptionsFor(false, env.proposeValidUploadPath(MakePath(folder, GetFileName(f.fileName), '/'))))
    {
      var path := MakePath(folder, GetFileName(f.fileName), '/');
      var res := UploadOne(env, settings, db, path, OptionsFor(false, env.proposeValidUploadPath(path)));
      if res.Failure? {
        return Failure(res.error);
      }
      Appended(env, old(db.items), db.items, [], [], res.value, path);
      TouchesOneMore(old(db.items), old(db.items), db.items, {}, res.value.item.value);
      assert [] + [res.value] == [res.value] && [] + [path] == [path];
      r := Success([res.value]);
    }

    /** MediaUploader.UnpackToDatabase: one media item per file entry of the archive, in archive order, without alternate text. */
    method UnpackToDatabase(env: Platform, settings: Settings, db: Database, f: PostedFile)
      returns (r: Result<seq<MediaUploadResult>, Error>)
      requires db.Valid()
      modifies db
      ensures SetupKept(db)
      ensures r.Success? ==>
        Produced(env, db, r.value, EntryPaths(folder, f.entries))
    {
      var rs: seq<MediaUploadResult> := [];
      for i := 0 to |f.entries|
        invariant SetupKept(db)
        invariant Produced(env, db, rs, EntryPaths(folder, f.entries[..i]))
      {
        var next := UnpackEntry(env, settings, db, f.entries, i, rs, old(db.items));
        if next.Failure? {
          return Failure(next.error);
        }
        rs := next.value;
      }
      assert f.entries[..|f.entries|] == f.entries;
      r := Success(rs);
    }

    /** The entry at index `i` of an archive: nothing for a directory, else its upload appended to the results. */
    method UnpackEntry(env: Platform, settings: Settings, db: Database, entries: seq<ZipEntry>, i: nat,
                       rs: seq<MediaUploadResult>, ghost start: Items)
      returns (r: Result<seq<MediaUploadResult>, Error>)
      requires db.Valid() && i < |entries|
      requires Listed(env, db.items, rs, EntryPaths(folder, entries[..i]))
      requires TouchesAll(start, db.items, ItemIds(rs))
      requires Distinct(rs)
      modifies db
      ensures SetupKept(db)
      ensures r.Success? ==>
        && |rs| <= |r.value| && (forall k :: 0 <= k < |rs| ==> r.value[k] == rs[k])
        && (forall k :: |rs| <= k < |r.value| ==> fresh(r.value[k]))
        && Listed(env, db.items, r.value, EntryPaths(folder, entries[..i + 1]))
        && TouchesAll(start, db.items, ItemIds(r.value))
        && Distinct(r.value)
    {
      EntryPathsSnoc(folder, entries, i);
      if entries[i].isDirectory {
        assert EntryPaths(folder, entries[..i + 1]) == EntryPaths(folder, entries[..i]);
        return Success(rs);
      }
      var path := MakePath(folder, entries[i].name, '/');
      assert EntryPaths(folder, entries[..i + 1]) == EntryPaths(folder, entries[..i]) + [path];
      r := UploadEntry(env, settings, db, rs, start, EntryPaths(folder, entries[..i]), path);
    }

    /**
     * The upload of one file entry of an archive: UploadOne with the entry's
     * options, of which the archive branch keeps the new result and the item
     * it refers to.
     */
    method UploadArchived(env: Platform, settings: Settings, db: Database, path: string)
      returns (r: Result<MediaUploadResult, Error>)
      requires db.Valid()
      modifies db
      ensures SetupKept(db)
      ensures r.Success? ==>
        && fresh(r.value)
        && r.value.path == Some(path)
        && r.value.validMediaPath == Some(env.proposeValidUploadPath(path))
        && r.value.item.Some? && r.value.item.value in db.items
        && Touches(old(db.items), db.items, r.value.item)
        && Written(env, settings, db.items, db.languages, db.templates, r.value.item.value, path,
                   OptionsFor(true, env.proposeValidUploadPath(path)))
    {
      r := UploadOne(env, settings, db, path, OptionsFor(true, env.proposeValidUploadPath(path)));
    }

    /** One file entry of an archive: its upload, appended to the results so far. */
    method UploadEntry(env: Platform, settings: Settings, db: Database, rs: seq<MediaUploadResult>,
                       ghost start: Items, ghost paths: seq<string>, path: string)
      returns (r: Result<seq<MediaUploadResult>, Error>)
      requires db.Valid()
      requires Listed(env, db.items, rs, paths)
      requires TouchesAll(start, db.items, ItemIds(rs))
      requires Distinct(rs)
      modifies db
      ensures SetupKept(db)
      ensures r.Success? ==>
        && |r.value| == |rs| + 1 && (forall k :: 0 <= k < |rs| ==> r.value[k] == rs[k])
        && (forall k :: |rs| <= k < |r.value| ==> fresh(r.value[k]))
        && Listed(env, db.items, r.value, paths + [path])
        && TouchesAll(start, db.items, ItemIds(r.value))
        && Distinct(r.value)
        && Written(env, settings, db.items, db.languages, db.templates, r.value[|rs|].item.value, path,
                   OptionsFor(true, env.proposeValidUploadPath(path)))
    {
      var res := UploadArchived(env, settings, db, path);
      if res.Failure? {
        return Failure(res.error);
      }
      assert forall k :: 0 <= k < |rs| ==> rs[k] != res.value;
      Appended(env, old(db.items), db.items, rs, paths, res.value, path);
      TouchesOneMore(start, old(db.items), db.items, ItemIds(rs), res.value.item.value);
      assert forall k :: |rs| <= k < |rs| + 1 ==> (rs + [res.value])[k] == res.value;
      r := Success(rs + [res.value]);
    }

    /** Appending one more upload's result to a listed run keeps it listed and adds its item to the run's items. */
    lemma Appended(env: Platform, a: Items, b: Items, rs: seq<MediaUploadResult>, paths: seq<string>,
                   res: MediaUploadResult, path: string)
      requires Listed(env, a, rs, paths)
      requires forall j :: j in a ==> j in b
      requires res.path == Some(path) && res.validMediaPath == Some(env.proposeValidUploadPath(path))
      requires res.item.Some? && res.item.value in b
      requires Distinct(rs) && forall k :: 0 <= k < |rs| ==> rs[k] != res
      ensures Listed(env, b, rs + [res], paths + [path])
      ensures ItemIds(rs + [res]) == ItemIds(rs) + {res.item.value}
      ensures Distinct(rs + [res]) && (rs + [res])[..|rs|] == rs
    {
      assert (rs + [res])[..|rs|] == rs;
    }
  }
}
