/**
 * MediaCreator's writer: folders, the create-or-revise decision for a media
 * item, the per-language fan-out of the media fields, and the reactions to
 * file-watcher events. The database is the imperative `Database` object; the
 * path and naming rules come from MediaPaths.
 */
module MediaCreator {
  import opened Wrappers
  import opened Platform
  import opened Repository
  import opened MediaPaths

  // ---------------------------------------------------------------------
  // Frames
  // ---------------------------------------------------------------------

  /** Languages, templates, standard values, workflow starts and the id counter's invariant are kept, and no item is deleted. */
  twostate predicate SetupKept(db: Database)
    reads db
  {
    && db.Valid()
    && (forall j :: j in old(db.items) ==> j in db.items)
    && db.languages == old(db.languages)
    && db.templates == old(db.templates)
    && db.standardValues == old(db.standardValues)
    && db.workflowStarts == old(db.workflowStarts)
  }

  /** No item of `a` is lost in `b`, and only `id` was changed or added besides new media folders. */
  predicate Touches(a: Items, b: Items, id: Option<nat>) {
    && (forall j :: j in a ==> j in b)
    && (forall j :: j in a && id != Some(j) ==> b[j] == a[j])
    && (forall j :: j in b && j !in a && id != Some(j) ==> b[j].template == MediaFolderTemplate)
  }

  /** Replacing an entry twice is replacing it once with the second value. */
  lemma UpdateTwice(m: Items, id: nat, a: Item, b: Item)
    ensures m[id := a][id := b] == m[id := b]
  { }

  twostate predicate TouchesOnly(db: Database, id: Option<nat>)
    reads db
  {
    Touches(old(db.items), db.items, id)
  }

  /** Creating media folders first and then touching `id` touches only `id` and folders. */
  lemma TouchesAfterFolders(a: Items, b: Items, c: Items, id: Option<nat>)
    requires Grows(a, b, MediaFolderTemplate) && Touches(b, c, id)
    ensures Touches(a, c, id)
  { }

  // ---------------------------------------------------------------------
  // Templates
  // ---------------------------------------------------------------------

  /** MediaCreator.GetItemTemplate: the configured template for the file's extension, looked up in the database. */
  function ItemTemplate(env: Platform, templates: map<string, string>, filePath: string, versioned: bool): (r: Result<string, Error>)
    ensures r.Success? <==> env.getTemplate(GetExtension(filePath), versioned) in templates - {""}
    ensures r.Success? ==> r.value == templates[env.getTemplate(GetExtension(filePath), versioned)]
  {
    var extension := GetExtension(filePath);
    var template := env.getTemplate(extension, versioned);
    if template == "" then Failure(TemplateNotFound(extension, versioned))
    else if template !in templates then Failure(TemplateItemMissing(template))
    else Success(templates[template])
  }

  // ---------------------------------------------------------------------
  // The language fan-out
  // ---------------------------------------------------------------------

  /** One edit of a version: keep a non-empty extension and alt text, point at `filePath`, bump the revision. */
  function MergeMedia(v: MediaVersion, extension: string, filePath: string, alt: string): MediaVersion {
    MediaVersion(FirstNonEmpty(v.extension, extension), filePath, FirstNonEmpty(v.alt, alt), v.revision + 1)
  }

  /** The edit of the latest version of `item` in `lang`. */
  function WriteMedia(item: Item, lang: Language, extension: string, filePath: string, alt: string): Item {
    PutLatest(item, lang, MergeMedia(Latest(item, lang), extension, filePath, alt))
  }

  /** The loop of CreateItem over the media languages, in order. */
  function FanOut(item: Item, langs: seq<Language>, extension: string, filePath: string, alt: string): Item
    decreases |langs|
  {
    if langs == [] then item
    else WriteMedia(FanOut(item, langs[..|langs| - 1], extension, filePath, alt), langs[|langs| - 1], extension, filePath, alt)
  }

  /** The fan-out edits only media versions, and only in the languages it is given. */
  lemma {:induction false} FanOutKeeps(item: Item, langs: seq<Language>, extension: string, filePath: string, alt: string)
    ensures var r := FanOut(item, langs, extension, filePath, alt);
      && r.name == item.name && r.parent == item.parent
      && r.template == item.template && r.fields == item.fields
      && forall l :: l !in langs ==> Latest(r, l) == Latest(item, l)
    decreases |langs|
  {
    if langs != [] {
      var init := langs[..|langs| - 1];
      FanOutKeeps(item, init, extension, filePath, alt);
      assert forall l :: l !in langs ==> l !in init && l != langs[|langs| - 1] by {
        assert langs == init + [langs[|langs| - 1]];
      }
    }
  }

  /**
   * Each language the fan-out writes ends with the first non-empty of its old
   * and the new extension and alt text, the new storage path, and the
   * revision raised once per occurrence of the language.
   */
  lemma {:induction false} FanOutWritten(item: Item, langs: seq<Language>, extension: string, filePath: string, alt: string, l: Language)
    requires l in langs
    ensures var v := Latest(item, l);
      Latest(FanOut(item, langs, extension, filePath, alt), l) ==
        MediaVersion(FirstNonEmpty(v.extension, extension), filePath, FirstNonEmpty(v.alt, alt), v.revision + multiset(langs)[l])
    decreases |langs|
  {
    var init := langs[..|langs| - 1];
    var last := langs[|langs| - 1];
    assert langs == init + [last];
    assert multiset(langs)[l] == multiset(init)[l] + (if last == l then 1 else 0);
    var before := FanOut(item, init, extension, filePath, alt);
    var after := WriteMedia(before, last, extension, filePath, alt);
    assert FanOut(item, langs, extension, filePath, alt) == after;
    var v := Latest(item, l);
    if l in init {
      FanOutWritten(item, init, extension, filePath, alt, l);
      var w := Latest(before, l);
      assert w.extension == FirstNonEmpty(v.extension, extension) && w.alt == FirstNonEmpty(v.alt, alt);
      if last == l {
        assert FirstNonEmpty(w.extension, extension) == w.extension && FirstNonEmpty(w.alt, alt) == w.alt;
        assert Latest(after, l) == MergeMedia(w, extension, filePath, alt);
      } else {
        assert Latest(after, l) == w;
      }
    } else {
      FanOutKeeps(item, init, extension, filePath, alt);
      assert multiset(init)[l] == 0;
      assert Latest(before, l) == v;
      assert Latest(after, l) == MergeMedia(v, extension, filePath, alt);
    }
  }

  /** The item CreateItem edits after its first step: one blank version in `lang`, nothing else. */
  function MediaBase(name: string, parent: Option<nat>, template: string, lang: Language, fields: map<string, string>): Item {
    Item(name, parent, template, map[lang := [BlankVersion]], fields)
  }

  /**
   * Since every version the fan-out meets is blank, each written language
   * carries exactly the new extension, storage path and alt text, with the
   * revision counting how often the language was written; every other
   * language has only a blank version or none.
   */
  lemma FanOutOfBase(name: string, parent: Option<nat>, template: string, lang: Language, fields: map<string, string>,
                     langs: seq<Language>, extension: string, filePath: string, alt: string)
    ensures var r := FanOut(MediaBase(name, parent, template, lang, fields), langs, extension, filePath, alt);
      && r.name == name && r.parent == parent && r.template == template && r.fields == fields
      && (forall l :: l in langs ==> Latest(r, l) == MediaVersion(extension, filePath, alt, multiset(langs)[l]))
      && (forall l :: l !in langs ==> Latest(r, l) == BlankVersion)
  {
    var b := MediaBase(name, parent, template, lang, fields);
    FanOutKeeps(b, langs, extension, filePath, alt);
    forall l | l in langs
      ensures Latest(FanOut(b, langs, extension, filePath, alt), l) == MediaVersion(extension, filePath, alt, multiset(langs)[l])
    {
      FanOutWritten(b, langs, extension, filePath, alt, l);
    }
  }

  /**
   * The state CreateItem leaves item `id` in: its name from the item path,
   * its template from the file's extension, and the fan-out of the file's
   * extension, storage path and alt text over the media languages. The
   * parent and the shared fields are the item's own (kept on revise, fresh on add).
   */
  predicate MediaWritten(item: Item, id: nat, env: Platform, settings: Settings, itemPath: string, filePath: string,
                         options: Options, languages: seq<Language>, templates: map<string, string>)
  {
    && filePath != "" && options.language.Some?
    && GetItemName(settings, itemPath).Success?
    && ItemTemplate(env, templates, filePath, options.versioned).Success?
    && item == FanOut(
         MediaBase(GetItemName(settings, itemPath).value, item.parent,
                   ItemTemplate(env, templates, filePath, options.versioned).value, options.language.value, item.fields),
         GetItemMediaLanguages(options.versioned, languages, options.language.value),
         GetExtension(filePath), GetFullFilePath(env, IdText(id), filePath, itemPath, options).value, options.alternateText)
  }

  /**
   * A written media item has the item path's last segment as its name; every
   * language it was written in holds the file's extension, the storage
   * path GetFullFilePath gives and the alt text; an unversioned
   * upload writes every database language, a versioned one only its own.
   */
  lemma MediaWrittenVersions(item: Item, id: nat, env: Platform, settings: Settings, itemPath: string, filePath: string,
                             options: Options, languages: seq<Language>, templates: map<string, string>)
    requires MediaWritten(item, id, env, settings, itemPath, filePath, options, languages, templates)
    ensures item.name == GetItemName(settings, itemPath).value
    ensures item.template == ItemTemplate(env, templates, filePath, options.versioned).value
    ensures forall l :: l in GetItemMediaLanguages(options.versioned, languages, options.language.value) ==>
      && Latest(item, l).extension == GetExtension(filePath)
      && Latest(item, l).filePath == GetFullFilePath(env, IdText(id), filePath, itemPath, options).value
      && Latest(item, l).alt == options.alternateText
      && Latest(item, l).revision > 0
    ensures forall l :: l !in GetItemMediaLanguages(options.versioned, languages, options.language.value) ==>
      Latest(item, l) == BlankVersion
  {
    var langs := GetItemMediaLanguages(options.versioned, languages, options.language.value);
    FanOutOfBase(GetItemName(settings, itemPath).value, item.parent,
                 ItemTemplate(env, templates, filePath, options.versioned).value, options.language.value, item.fields,
                 langs, GetExtension(filePath), GetFullFilePath(env, IdText(id), filePath, itemPath, options).value,
                 options.alternateText);
  }

  /** The loop of CreateItem: one edit per media language, in order. */
  method WriteMediaVersions(db: Database, id: nat, langs: seq<Language>, extension: string, filePath: string, alt: string)
    requires db.Valid() && id in db.items
    modifies db
    ensures SetupKept(db) && db.nextId == old(db.nextId)
    ensures db.items == old(db.items)[id := FanOut(old(db.items)[id], langs, extension, filePath, alt)]
  {
    for i := 0 to |langs|
      invariant SetupKept(db) && db.nextId == old(db.nextId)
      invariant db.items == old(db.items)[id := FanOut(old(db.items)[id], langs[..i], extension, filePath, alt)]
    {
      assert langs[..i + 1][..i] == langs[..i];
      db.Store(id, WriteMedia(db.items[id], langs[i], extension, filePath, alt));
    }
    assert langs[..|langs|] == langs;
  }

  // ---------------------------------------------------------------------
  // Folders
  // ---------------------------------------------------------------------

  /**
   * MediaCreator.CreateFolder: the item at `itemPath` when there is one,
   * otherwise the path created with media folders. It fails on an empty path,
   * a missing folder template, a missing language, or a path that does not
   * start at the root.
   */
  method CreateFolder(db: Database, itemPath: string, options: Options) returns (r: Result<nat, Error>)
    requires db.Valid()
    modifies db
    ensures SetupKept(db)
    ensures itemPath == "" ==> r == Failure(ArgumentEmpty("itemPath"))
    ensures itemPath != "" && MediaFolderTemplate !in db.templates ==> r == Failure(FolderTemplateMissing)
    ensures itemPath != "" && MediaFolderTemplate in db.templates && options.language.None? ==> r == Failure(ArgumentNull("language"))
    ensures r.Success? <==>
      itemPath != "" && MediaFolderTemplate in db.templates && options.language.Some? && Rooted(old(db.items), itemPath)
    ensures r.Failure? && itemPath != "" && MediaFolderTemplate in db.templates && options.language.Some? ==>
      r == Failure(CouldNotCreateFolder(itemPath))
    ensures r.Failure? ==> db.items == old(db.items) && db.nextId == old(db.nextId)
    ensures r.Success? ==> db.GetItem(itemPath) == Some(r.value)
    ensures r.Success? && old(db.GetItem(itemPath)).Some? ==>
      r.value == old(db.GetItem(itemPath)).value && db.items == old(db.items) && db.nextId == old(db.nextId)
    ensures Grows(old(db.items), db.items, MediaFolderTemplate)
  {
    if itemPath == "" {
      return Failure(ArgumentEmpty("itemPath"));
    }
    if MediaFolderTemplate !in db.templates {
      return Failure(FolderTemplateMissing);
    }
    if options.language.None? {
      return Failure(ArgumentNull("language"));
    }
    var found := db.GetItem(itemPath);
    if found.Some? {
      return Success(found.value);
    }
    var created := db.CreateItemPath(itemPath, MediaFolderTemplate, options.language.value);
    if created.None? {
      return Failure(CouldNotCreateFolder(itemPath));
    }
    r := Success(created.value);
  }

  // ---------------------------------------------------------------------
  // Items
  // ---------------------------------------------------------------------

  /**
   * The revise branch of CreateItem: every version dropped, one blank version
   * added in `lang`, then one edit setting the name and the template. When no
   * template is found the edit is not committed and the versions stay reset.
   */
  method Revise(env: Platform, db: Database, id: nat, name: string, filePath: string, versioned: bool, lang: Language)
    returns (r: Outcome<Error>)
    requires db.Valid() && id in db.items
    modifies db
    ensures SetupKept(db) && db.nextId == old(db.nextId)
    ensures var reset := old(db.items)[id].(versions := map[lang := [BlankVersion]]);
      var t := ItemTemplate(env, old(db.templates), filePath, versioned);
      && (t.Failure? ==> r == Fail(t.error) && db.items == old(db.items)[id := reset])
      && (t.Success? ==> r == Pass && db.items == old(db.items)[id := reset.(name := name, template := t.value)])
  {
    db.RemoveAllVersions(id);
    db.AddVersion(id, lang);
    assert [] + [BlankVersion] == [BlankVersion];
    var t := ItemTemplate(env, db.templates, filePath, versioned);
    if t.Failure? {
      return Fail(t.error);
    }
    db.Store(id, db.items[id].(name := name, template := t.value));
    r := Pass;
  }

  /** The existing item CreateItem revises in place rather than adding a sibling. */
  predicate Reusable(items: Items, id: nat)
    requires id in items
  {
    !HasChildren(items, id) && items[id].template != MediaFolderTemplate
  }

  /** Some item of `items` other than `other` has `id` as its parent. */
  predicate HasOtherChild(items: Items, id: nat, other: nat) {
    exists j :: j in items && j != other && items[j].parent == Some(id)
  }

  /** The fan-out step of CreateItem: the media fields of `id` written in every media language. */
  method StampMedia(env: Platform, settings: Settings, db: Database, id: nat, itemPath: string, filePath: string, options: Options)
    requires db.Valid() && id in db.items
    requires filePath != "" && options.language.Some?
    requires GetItemName(settings, itemPath).Success?
    requires ItemTemplate(env, db.templates, filePath, options.versioned).Success?
    requires db.items[id] == MediaBase(GetItemName(settings, itemPath).value, db.items[id].parent,
      ItemTemplate(env, db.templates, filePath, options.versioned).value, options.language.value, db.items[id].fields)
    modifies db
    ensures SetupKept(db) && db.nextId == old(db.nextId)
    ensures id in db.items && MediaWritten(db.items[id], id, env, settings, itemPath, filePath, options, old(db.languages), old(db.templates))
    ensures db.items == old(db.items)[id := db.items[id]]
    ensures db.items[id].name == old(db.items)[id].name && db.items[id].parent == old(db.items)[id].parent
    ensures db.items[id].fields == old(db.items)[id].fields
  {
    var langs := GetItemMediaLanguages(options.versioned, db.languages, options.language.value);
    FullFilePathOfItem(env, id, filePath, itemPath, options);
    var storage := GetFullFilePath(env, IdText(id), filePath, itemPath, options).value;
    WriteMediaVersions(db, id, langs, GetExtension(filePath), storage, options.alternateText);
    FanOutKeeps(old(db.items)[id], langs, GetExtension(filePath), storage, options.alternateText);
    MediaWrittenIntro(old(db.items)[id], id, env, settings, itemPath, filePath, options, db.languages, db.templates);
  }

  /** The revise branch of CreateItem, followed by the fan-out. */
  method ReviseItem(env: Platform, settings: Settings, db: Database, e: nat, itemPath: string, filePath: string, options: Options)
    returns (r: Result<nat, Error>)
    requires db.Valid() && e in db.items && Reusable(db.items, e)
    requires filePath != "" && options.language.Some? && GetItemName(settings, itemPath).Success?
    modifies db
    ensures SetupKept(db)
    ensures r.Failure? ==> TouchesOnly(db, Some(e))
    ensures r.Success? ==>
      && r == Success(e) && e in db.items && TouchesOnly(db, Some(e))
      && MediaWritten(db.items[e], e, env, settings, itemPath, filePath, options, old(db.languages), old(db.templates))
      && !HasChildren(db.items, e)
      && db.items[e].parent == old(db.items)[e].parent
      && db.items[e].fields == old(db.items)[e].fields
  {
    var revised := Revise(env, db, e, GetItemName(settings, itemPath).value, filePath, options.versioned, options.language.value);
    if revised.Fail? {
      return Failure(revised.error);
    }
    ghost var items2 := db.items;
    StampMedia(env, settings, db, e, itemPath, filePath, options);
    UpdateTwice(old(db.items), e, items2[e], db.items[e]);
    assert !HasChildren(db.items, e) by {
      forall j | j in db.items ensures db.items[j].parent != Some(e) {
        assert j != e ==> db.items[j] == old(db.items)[j];
      }
    }
    r := Success(e);
  }

  /** The add branch of CreateItem up to the fan-out: the template looked up, the new child `name` under the parent folder. */
  method AddBase(env: Platform, db: Database, parent: nat, ghost folderPath: string, name: string, filePath: string, options: Options)
    returns (r: Result<nat, Error>)
    requires db.Valid() && db.GetItem(folderPath) == Some(parent)
    requires options.language.Some?
    modifies db
    ensures SetupKept(db)
    ensures r.Failure? ==> db.items == old(db.items)
    ensures r.Success? ==>
      && ItemTemplate(env, db.templates, filePath, options.versioned).Success?
      && r.value == old(db.nextId) && r.value !in old(db.items)
      && db.items == old(db.items)[r.value := MediaBase(name, Some(parent),
           ItemTemplate(env, db.templates, filePath, options.versioned).value, options.language.value, map[])]
      && db.GetItem(folderPath) == Some(parent)
  {
    var template := ItemTemplate(env, db.templates, filePath, options.versioned);
    if template.Failure? {
      return Failure(template.error);
    }
    var id := db.AddChild(parent, name, template.value, options.language.value);
    ResolveAfterAdd(old(db.items), old(db.nextId), db.items[id], folderPath);
    r := Success(id);
  }

  /** The add branch of CreateItem, followed by the fan-out. */
  method AddItem(env: Platform, settings: Settings, db: Database, parent: nat, itemPath: string, filePath: string, options: Options)
    returns (r: Result<nat, Error>)
    requires db.Valid() && db.GetItem(ParentFolderPath(itemPath)) == Some(parent)
    requires filePath != "" && options.language.Some? && GetItemName(settings, itemPath).Success?
    modifies db
    ensures SetupKept(db)
    ensures r.Failure? ==> db.items == old(db.items)
    ensures r.Success? ==>
      && r.value !in old(db.items) && r.value in db.items
      && db.items == old(db.items)[r.value := db.items[r.value]]
      && MediaWritten(db.items[r.value], r.value, env, settings, itemPath, filePath, options, old(db.languages), old(db.templates))
      && db.items[r.value].fields == map[]
      && db.items[r.value].parent == Some(parent) && db.GetItem(ParentFolderPath(itemPath)) == Some(parent)
  {
    r := AddBase(env, db, parent, ParentFolderPath(itemPath), GetItemName(settings, itemPath).value, filePath, options);
    if r.Failure? {
      return;
    }
    ghost var added := db.items;
    StampNew(env, settings, db, r.value, ParentFolderPath(itemPath), parent, itemPath, filePath, options);
    UpdateTwice(old(db.items), r.value, added[r.value], db.items[r.value]);
  }

  /** The fan-out of a freshly added item, which leaves the folder lookup as it was. */
  method StampNew(env: Platform, settings: Settings, db: Database, id: nat, ghost folderPath: string, parent: nat,
                  itemPath: string, filePath: string, options: Options)
    requires db.Valid() && id in db.items && db.GetItem(folderPath) == Some(parent)
    requires filePath != "" && options.language.Some?
    requires GetItemName(settings, itemPath).Success?
    requires ItemTemplate(env, db.templates, filePath, options.versioned).Success?
    requires db.items[id] == MediaBase(GetItemName(settings, itemPath).value, db.items[id].parent,
      ItemTemplate(env, db.templates, filePath, options.versioned).value, options.language.value, db.items[id].fields)
    modifies db
    ensures SetupKept(db)
    ensures id in db.items && MediaWritten(db.items[id], id, env, settings, itemPath, filePath, options, old(db.languages), old(db.templates))
    ensures db.items == old(db.items)[id := db.items[id]]
    ensures db.items[id].fields == old(db.items)[id].fields && db.items[id].parent == old(db.items)[id].parent
    ensures db.GetItem(folderPath) == Some(parent)
  {
    StampMedia(env, settings, db, id, itemPath, filePath, options);
    assert SameShape(old(db.items), db.items);
    ResolveSameShape(old(db.items), db.items, db.nextId, folderPath);
  }

  /**
   * The part of CreateItem after the parent folder and the name are known:
   * revise or add, then write the media fields in every media language.
   */
  method WriteItem(env: Platform, settings: Settings, db: Database, existing: Option<nat>, parent: nat,
                   itemPath: string, filePath: string, options: Options)
    returns (r: Result<nat, Error>)
    requires db.Valid() && (existing.Some? ==> existing.value in db.items)
    requires db.GetItem(ParentFolderPath(itemPath)) == Some(parent)
    requires filePath != "" && options.language.Some? && GetItemName(settings, itemPath).Success?
    modifies db
    ensures SetupKept(db)
    ensures r.Success? ==>
      && r.value in db.items
      && MediaWritten(db.items[r.value], r.value, env, settings, itemPath, filePath, options, old(db.languages), old(db.templates))
    ensures r.Success? && r.value in old(db.items) ==>
      && existing == Some(r.value) && Reusable(old(db.items), r.value) && !HasChildren(db.items, r.value)
      && db.items[r.value].parent == old(db.items)[r.value].parent
      && db.items[r.value].fields == old(db.items)[r.value].fields
    ensures r.Success? && r.value !in old(db.items) ==>
      && db.items[r.value].fields == map[]
      && db.items[r.value].parent == Some(parent) && db.GetItem(ParentFolderPath(itemPath)) == Some(parent)
      && (existing.Some? ==>
            && !Reusable(old(db.items), existing.value)
            && (HasOtherChild(db.items, existing.value, r.value) || old(db.items)[existing.value].template == MediaFolderTemplate))
    ensures r.Success? ==> TouchesOnly(db, Some(r.value))
    ensures r.Failure? ==> TouchesOnly(db, existing)
  {
    if existing.Some? && Reusable(db.items, existing.value) {
      r := ReviseItem(env, settings, db, existing.value, itemPath, filePath, options);
    } else {
      r := AddInstead(env, settings, db, existing, parent, itemPath, filePath, options);
    }
  }

  /** The add branch of WriteItem: an existing item that cannot be revised keeps its children or its folder template. */
  method AddInstead(env: Platform, settings: Settings, db: Database, ghost existing: Option<nat>, parent: nat,
                    itemPath: string, filePath: string, options: Options)
    returns (r: Result<nat, Error>)
    requires db.Valid() && (existing.Some? ==> existing.value in db.items && !Reusable(db.items, existing.value))
    requires db.GetItem(ParentFolderPath(itemPath)) == Some(parent)
    requires filePath != "" && options.language.Some? && GetItemName(settings, itemPath).Success?
    modifies db
    ensures SetupKept(db)
    ensures r.Success? ==>
      && r.value !in old(db.items) && r.value in db.items
      && MediaWritten(db.items[r.value], r.value, env, settings, itemPath, filePath, options, old(db.languages), old(db.templates))
      && db.items[r.value].fields == map[]
      && db.items[r.value].parent == Some(parent) && db.GetItem(ParentFolderPath(itemPath)) == Some(parent)
      && (existing.Some? ==>
            HasOtherChild(db.items, existing.value, r.value) || old(db.items)[existing.value].template == MediaFolderTemplate)
    ensures r.Success? ==> TouchesOnly(db, Some(r.value))
    ensures r.Failure? ==> db.items == old(db.items)
  {
    r := AddItem(env, settings, db, parent, itemPath, filePath, options);
    if r.Success? && existing.Some? && HasChildren(old(db.items), existing.value) {
      var j :| j in old(db.items) && old(db.items)[j].parent == Some(existing.value);
      assert j in db.items && j != r.value && db.items[j].parent == Some(existing.value);
    }
  }

  /**
   * MediaCreator.CreateItem. With OverwriteExisting set and a childless,
   * non-folder item at `itemPath`, that item keeps its identity, parent and
   * shared fields and is revised; in every other case a new child of the
   * parent folder is added. Either way the item ends as MediaWritten states,
   * and nothing else changes except the media folders created on the way.
   */
  method CreateItem(env: Platform, settings: Settings, db: Database, itemPath: string, filePath: string, options: Options)
    returns (r: Result<nat, Error>)
    requires db.Valid()
    modifies db
    ensures SetupKept(db)
    ensures itemPath == "" ==> r == Failure(ArgumentEmpty("itemPath"))
    ensures itemPath != "" && filePath == "" ==> r == Failure(ArgumentEmpty("filePath"))
    ensures itemPath != "" && filePath != "" && options.overwriteExisting && options.language.None? ==>
      r == Failure(ArgumentNull("language"))
    ensures options.language.None? ==> r.Failure?
    ensures r.Success? ==>
      && r.value in db.items
      && MediaWritten(db.items[r.value], r.value, env, settings, itemPath, filePath, options, old(db.languages), old(db.templates))
    ensures r.Success? && r.value in old(db.items) ==>
      && options.overwriteExisting && old(db.GetItem(itemPath)) == Some(r.value)
      && old(db.items)[r.value].template != MediaFolderTemplate && !HasChildren(db.items, r.value)
      && db.items[r.value].parent == old(db.items)[r.value].parent
      && db.items[r.value].fields == old(db.items)[r.value].fields
    ensures r.Success? && r.value !in old(db.items) ==>
      && db.items[r.value].fields == map[]
      && db.items[r.value].parent == db.GetItem(ParentFolderPath(itemPath))
      && (options.overwriteExisting && old(db.GetItem(itemPath)).Some? ==>
            var e := old(db.GetItem(itemPath)).value;
            HasOtherChild(db.items, e, r.value) || old(db.items)[e].template == MediaFolderTemplate)
    ensures r.Success? ==> TouchesOnly(db, Some(r.value))
    ensures r.Failure? ==> TouchesOnly(db, if options.overwriteExisting then old(db.GetItem(itemPath)) else None)
  {
    if itemPath == "" {
      return Failure(ArgumentEmpty("itemPath"));
    }
    if filePath == "" {
      return Failure(ArgumentEmpty("filePath"));
    }
    var existing: Option<nat> := None;
    if options.overwriteExisting {
      if options.language.None? {
        return Failure(ArgumentNull("language"));
      }
      existing := db.GetItem(itemPath);
    }
    var parent := CreateFolder(db, ParentFolderPath(itemPath), options);
    if parent.Failure? {
      return Failure(parent.error);
    }
    var name := GetItemName(settings, itemPath);
    if name.Failure? {
      return Failure(name.error);
    }
    ghost var items1 := db.items;
    r := WriteItem(env, settings, db, existing, parent.value, itemPath, filePath, options);
    TouchesAfterFolders(old(db.items), items1, db.items, if r.Success? then Some(r.value) else existing);
  }

  /** The fan-out of a freshly based item is a written media item. */
  lemma MediaWrittenIntro(base: Item, id: nat, env: Platform, settings: Settings, itemPath: string, filePath: string,
                          options: Options, languages: seq<Language>, templates: map<string, string>)
    requires filePath != "" && options.language.Some?
    requires GetItemName(settings, itemPath).Success?
    requires ItemTemplate(env, templates, filePath, options.versioned).Success?
    requires base == MediaBase(GetItemName(settings, itemPath).value, base.parent,
      ItemTemplate(env, templates, filePath, options.versioned).value, options.language.value, base.fields)
    ensures MediaWritten(FanOut(base, GetItemMediaLanguages(options.versioned, languages, options.language.value),
        GetExtension(filePath), GetFullFilePath(env, IdText(id), filePath, itemPath, options).value, options.alternateText),
      id, env, settings, itemPath, filePath, options, languages, templates)
  {
    FullFilePathOfItem(env, id, filePath, itemPath, options);
    FanOutKeeps(base, GetItemMediaLanguages(options.versioned, languages, options.language.value),
      GetExtension(filePath), GetFullFilePath(env, IdText(id), filePath, itemPath, options).value, options.alternateText);
  }

  /** MediaCreator.AttachStreamToMediaItem: CreateItem for a named file; the stream itself is not part of this model. */
  method AttachStreamToMediaItem(env: Platform, settings: Settings, db: Database, itemPath: string, fileName: string, options: Options)
    returns (r: Result<nat, Error>)
    requires db.Valid()
    modifies db
    ensures SetupKept(db)
    ensures fileName == "" ==> r == Failure(ArgumentEmpty("fileName")) && db.items == old(db.items)
    ensures itemPath == "" ==> r.Failure?
    ensures r.Success? ==>
      && r.value in db.items && TouchesOnly(db, Some(r.value))
      && MediaWritten(db.items[r.value], r.value, env, settings, itemPath, fileName, options, old(db.languages), old(db.templates))
  {
    if fileName == "" {
      return Failure(ArgumentEmpty("fileName"));
    }
    r := CreateItem(env, settings, db, itemPath, fileName, options);
  }

  /**
   * MediaCreator.CreateFromStream: the item path of `filePath` (the
   * destination when one is set), then AttachStreamToMediaItem.
   */
  method CreateFromStream(env: Platform, settings: Settings, db: Database, filePath: string, options: Options)
    returns (r: Result<nat, Error>)
    requires db.Valid()
    modifies db
    ensures SetupKept(db)
    ensures filePath == "" ==> r == Failure(ArgumentEmpty("filePath")) && db.items == old(db.items)
    ensures filePath != "" && GetItemPath(env, settings, filePath, options).Failure? ==>
      r == Failure(GetItemPath(env, settings, filePath, options).error) && db.items == old(db.items)
    ensures r.Success? ==> GetItemPath(env, settings, filePath, options).Success?
    ensures r.Success? ==>
      && r.value in db.items && TouchesOnly(db, Some(r.value))
      && MediaWritten(db.items[r.value], r.value, env, settings, GetItemPath(env, settings, filePath, options).value,
                   filePath, options, old(db.languages), old(db.templates))
  {
    if filePath == "" {
      return Failure(ArgumentEmpty("filePath"));
    }
    var itemPath := GetItemPath(env, settings, filePath, options);
    if itemPath.Failure? {
      return Failure(itemPath.error);
    }
    r := AttachStreamToMediaItem(env, settings, db, itemPath.value, filePath, options);
  }

  /** MediaCreator.CreateFromFile: CreateFromStream over the file's content; opening the file is not part of this model. */
  method CreateFromFile(env: Platform, settings: Settings, db: Database, filePath: string, options: Options)
    returns (r: Result<nat, Error>)
    requires db.Valid()
    modifies db
    ensures SetupKept(db)
    ensures filePath == "" ==> r == Failure(ArgumentEmpty("filePath")) && db.items == old(db.items)
    ensures r.Success? ==> GetItemPath(env, settings, filePath, options).Success?
    ensures r.Success? ==>
      && r.value in db.items && TouchesOnly(db, Some(r.value))
      && MediaWritten(db.items[r.value], r.value, env, settings, GetItemPath(env, settings, filePath, options).value,
                   filePath, options, old(db.languages), old(db.templates))
  {
    if filePath == "" {
      return Failure(ArgumentEmpty("filePath"));
    }
    r := CreateFromStream(env, settings, db, filePath, options);
  }

  /** MediaCreator.CreateFromFolder: the media folder for a file-system folder. */
  method CreateFromFolder(env: Platform, settings: Settings, db: Database, folderPath: string, options: Options)
    returns (r: Result<nat, Error>)
    requires db.Valid()
    modifies db
    ensures SetupKept(db)
    ensures folderPath == "" ==> r == Failure(ArgumentEmpty("folderPath"))
    ensures folderPath != "" && GetItemPath(env, settings, folderPath, options).Failure? ==>
      r == Failure(GetItemPath(env, settings, folderPath, options).error)
    ensures folderPath != "" && GetItemPath(env, settings, folderPath, options).Success? ==>
      var p := GetItemPath(env, settings, folderPath, options).value;
      r.Success? <==> p != "" && MediaFolderTemplate in db.templates && options.language.Some? && Rooted(old(db.items), p)
    ensures r.Success? ==>
      && GetItemPath(env, settings, folderPath, options).Success?
      && db.GetItem(GetItemPath(env, settings, folderPath, options).value) == Some(r.value)
    ensures Grows(old(db.items), db.items, MediaFolderTemplate)
  {
    if folderPath == "" {
      return Failure(ArgumentEmpty("folderPath"));
    }
    var itemPath := GetItemPath(env, settings, folderPath, options);
    if itemPath.Failure? {
      return Failure(itemPath.error);
    }
    r := CreateFolder(db, itemPath.value, options);
  }

  // ---------------------------------------------------------------------
  // File-watcher events
  // ---------------------------------------------------------------------

  /** The options FileCreated gives a new file: file-based when it is too large for the database or uploads go to files. */
  function FileCreatedOptions(env: Platform, settings: Settings, filePath: string): (r: Options)
    ensures r.fileBased <==> env.fileLength(filePath) > settings.maxSizeInDatabase || settings.uploadAsFiles
    ensures r.(fileBased := env.fileBasedOptions.fileBased) == env.fileBasedOptions
  {
    env.fileBasedOptions.(fileBased := env.fileLength(filePath) > settings.maxSizeInDatabase || settings.uploadAsFiles)
  }

  /**
   * MediaCreator.FileCreated: a folder becomes a media folder, a file a media
   * item whose storage follows the file-based rule. The created item is
   * returned here; the source discards it.
   */
  method FileCreated(env: Platform, settings: Settings, db: Database, filePath: string) returns (r: Result<nat, Error>)
    requires db.Valid()
    modifies db
    ensures SetupKept(db)
    ensures filePath == "" ==> r == Failure(ArgumentEmpty("filePath")) && db.items == old(db.items)
    ensures env.isFolder(filePath) ==> Grows(old(db.items), db.items, MediaFolderTemplate)
    ensures env.isFolder(filePath) && r.Success? ==>
      && GetItemPath(env, settings, filePath, env.fileBasedOptions).Success?
      && db.GetItem(GetItemPath(env, settings, filePath, env.fileBasedOptions).value) == Some(r.value)
    ensures !env.isFolder(filePath) && r.Success? ==>
      var options := FileCreatedOptions(env, settings, filePath);
      && GetItemPath(env, settings, filePath, options).Success?
      && r.value in db.items && TouchesOnly(db, Some(r.value))
      && MediaWritten(db.items[r.value], r.value, env, settings, GetItemPath(env, settings, filePath, options).value,
                      filePath, options, old(db.languages), old(db.templates))
  {
    if filePath == "" {
      return Failure(ArgumentEmpty("filePath"));
    }
    if env.isFolder(filePath) {
      r := CreateFromFolder(env, settings, db, filePath, env.fileBasedOptions);
    } else {
      r := CreateFromFile(env, settings, db, filePath, FileCreatedOptions(env, settings, filePath));
    }
  }

  /** MediaCreator.FileDeleted: checks its argument and does nothing else. */
  function FileDeleted(filePath: string): (r: Outcome<Error>)
    ensures r.Pass? <==> filePath != ""
    ensures r.Fail? ==> r.error == ArgumentEmpty("filePath")
  {
    if filePath == "" then Fail(ArgumentEmpty("filePath")) else Pass
  }

  /** The rename edit: the new name, and the new extension on the latest version in `lang`. */
  function Renamed(item: Item, name: string, extension: string, lang: Language): (r: Item)
    ensures r.name == name && r.parent == item.parent && r.template == item.template && r.fields == item.fields
    ensures Latest(r, lang) == Latest(item, lang).(extension := extension)
    ensures forall l :: l != lang ==> Latest(r, l) == Latest(item, l)
  {
    PutLatest(item.(name := name), lang, Latest(item, lang).(extension := extension))
  }

  /**
   * MediaCreator.FileRenamed: the item of the old file, when there is one,
   * takes the name of the new file's item path and the new file's extension.
   */
  method FileRenamed(env: Platform, settings: Settings, db: Database, filePath: string, oldFilePath: string)
    returns (r: Outcome<Error>)
    requires db.Valid()
    modifies db
    ensures SetupKept(db) && db.nextId == old(db.nextId)
    ensures filePath == "" ==> r == Fail(ArgumentEmpty("filePath")) && db.items == old(db.items)
    ensures filePath != "" && oldFilePath == "" ==> r == Fail(ArgumentEmpty("oldFilePath")) && db.items == old(db.items)
    ensures filePath != "" && oldFilePath != "" ==>
      var options := env.fileBasedOptions;
      var oldPath := GetItemPath(env, settings, oldFilePath, options);
      var newPath := GetItemPath(env, settings, filePath, options);
      && (oldPath.Failure? ==> r == Fail(oldPath.error) && db.items == old(db.items))
      && (oldPath.Success? && old(db.GetItem(oldPath.value)).None? ==> r == Pass && db.items == old(db.items))
      && (oldPath.Success? && old(db.GetItem(oldPath.value)).Some? ==>
            var id := old(db.GetItem(oldPath.value)).value;
            && (newPath.Failure? ==> r == Fail(newPath.error) && db.items == old(db.items))
            && (newPath.Success? ==> r == Pass && db.items == old(db.items)[id :=
                  Renamed(old(db.items)[id], GetFileName(newPath.value), GetExtension(filePath), env.contextLanguage)]))
  {
    if filePath == "" {
      return Fail(ArgumentEmpty("filePath"));
    }
    if oldFilePath == "" {
      return Fail(ArgumentEmpty("oldFilePath"));
    }
    var options := env.fileBasedOptions;
    var oldPath := GetItemPath(env, settings, oldFilePath, options);
    if oldPath.Failure? {
      return Fail(oldPath.error);
    }
    var item := db.GetItem(oldPath.value);
    if item.None? {
      return Pass;
    }
    var newPath := GetItemPath(env, settings, filePath, options);
    if newPath.Failure? {
      return Fail(newPath.error);
    }
    var id := item.value;
    db.Store(id, Renamed(db.items[id], GetFileName(newPath.value), GetExtension(filePath), env.contextLanguage));
    r := Pass;
  }
}
