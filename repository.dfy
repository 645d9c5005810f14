/**
 * The content database the media code writes to, kept abstract: items with
 * a numeric identity, a name, a parent link, a template, per-language media
 * versions and shared fields. Names need not be unique among siblings; a path
 * lookup walks the path's segments and takes, at each step, the oldest child
 * of that name.
 */
module Repository {
  import opened Wrappers
  import opened Platform

  /** The media fields of one version of an item in one language. */
  datatype MediaVersion = MediaVersion(extension: string, filePath: string, alt: string, revision: nat)

  /** A version as AddVersion creates it: every media field empty. */
  const BlankVersion: MediaVersion := MediaVersion("", "", "", 0)

  datatype Item = Item(
    name: string,
    parent: Option<nat>,
    template: string,
    versions: map<Language, seq<MediaVersion>>,
    fields: map<string, string>
  )

  type Items = map<nat, Item>

  /** The latest version of `item` in `lang`, or a blank one when the language has none. */
  function Latest(item: Item, lang: Language): MediaVersion {
    if lang in item.versions && |item.versions[lang]| > 0
    then item.versions[lang][|item.versions[lang]| - 1]
    else BlankVersion
  }

  /** Replaces the latest version of `lang` by `v`, creating the first one when there is none. */
  function PutLatest(item: Item, lang: Language, v: MediaVersion): (r: Item)
    ensures Latest(r, lang) == v
    ensures forall l :: l != lang ==> Latest(r, l) == Latest(item, l)
    ensures r.name == item.name && r.parent == item.parent
    ensures r.template == item.template && r.fields == item.fields
  {
    var vs := if lang in item.versions && |item.versions[lang]| > 0
              then item.versions[lang][..|item.versions[lang]| - 1] else [];
    item.(versions := item.versions[lang := vs + [v]])
  }

  /**
   * The field value Item.Fields[name].Value: the item's own value, else the
   * standard value its template gives the field, else "".
   */
  function FieldValue(item: Item, standardValues: map<string, map<string, string>>, name: string): (r: string)
    ensures name in item.fields ==> r == item.fields[name]
    ensures name !in item.fields && item.template !in standardValues ==> r == ""
  {
    if name in item.fields then item.fields[name]
    else if item.template in standardValues && name in standardValues[item.template] then standardValues[item.template][name]
    else ""
  }

  predicate IsChildNamed(item: Item, parent: nat, name: string) {
    item.parent == Some(parent) && item.name == name
  }

  /** The lowest id in [from, bound) of a child of `parent` called `name`. */
  function ScanChild(items: Items, parent: nat, name: string, from: nat, bound: nat): (r: Option<nat>)
    decreases bound - from
    ensures r.Some? ==> from <= r.value < bound && r.value in items && IsChildNamed(items[r.value], parent, name)
    ensures r.Some? ==> forall j :: from <= j < r.value && j in items ==> !IsChildNamed(items[j], parent, name)
    ensures r.None? ==> forall j :: from <= j < bound && j in items ==> !IsChildNamed(items[j], parent, name)
  {
    if from >= bound then None
    else if from in items && IsChildNamed(items[from], parent, name) then Some(from)
    else ScanChild(items, parent, name, from + 1, bound)
  }

  /** Item.Children[name]: the oldest child of `parent` called `name`. */
  function FirstChild(items: Items, bound: nat, parent: nat, name: string): Option<nat> {
    ScanChild(items, parent, name, 0, bound)
  }

  /** Follows `segs` down from `start`, one child lookup per segment. */
  function Walk(items: Items, bound: nat, start: nat, segs: seq<string>): (r: Option<nat>)
    decreases |segs|
    ensures r.Some? && segs != [] ==> r.value in items
  {
    if segs == [] then Some(start)
    else match Walk(items, bound, start, segs[..|segs| - 1])
      case None => None
      case Some(c) => FirstChild(items, bound, c, segs[|segs| - 1])
  }

  /** The non-empty `/`-separated segments of a path. */
  function Segments(path: string): (r: seq<string>)
    decreases |path|
    ensures forall i :: 0 <= i < |r| ==> r[i] != "" && '/' !in r[i]
  {
    if path == [] then []
    else if path[0] == '/' then Segments(path[1..])
    else
      var k := IndexOfOrEnd(path, '/');
      [path[..k]] + Segments(path[k..])
  }

  /** True when the first segment of `path` names the root item. */
  predicate Rooted(items: Items, path: string) {
    var segs := Segments(path);
    |segs| > 0 && 0 in items && segs[0] == items[0].name
  }

  /** Database.GetItem(path): the item the path leads to from the root. */
  function Resolve(items: Items, bound: nat, path: string): (r: Option<nat>)
    ensures r.Some? ==> r.value in items
  {
    if !Rooted(items, path) then None
    else Walk(items, bound, 0, Segments(path)[1..])
  }

  predicate HasChildren(items: Items, id: nat) {
    exists j :: j in items && items[j].parent == Some(id)
  }

  /** Every key of `items` lies below `bound`. */
  predicate Bounded(items: Items, bound: nat) {
    forall i :: i in items ==> i < bound
  }

  /** `after` keeps every item of `before` and adds only items with template `tpl`. */
  predicate Grows(before: Items, after: Items, tpl: string) {
    && (forall i :: i in before ==> i in after && after[i] == before[i])
    && (forall i :: i in after && i !in before ==> after[i].template == tpl)
  }

  lemma GrowsTrans(a: Items, b: Items, c: Items, tpl: string)
    requires Grows(a, b, tpl) && Grows(b, c, tpl)
    ensures Grows(a, c, tpl)
  { }

  /** Adding an item under a fresh id changes no earlier lookup result. */
  lemma {:induction false} ScanAfterAdd(items: Items, n: nat, it: Item, parent: nat, name: string, from: nat)
    requires Bounded(items, n) && from <= n
    ensures ScanChild(items[n := it], parent, name, from, n + 1) ==
      (if ScanChild(items, parent, name, from, n).Some? then ScanChild(items, parent, name, from, n)
       else if IsChildNamed(it, parent, name) then Some(n) else None)
    decreases n - from
  {
    var items' := items[n := it];
    if from == n {
      assert ScanChild(items, parent, name, from, n) == None;
    } else {
      assert from in items' <==> from in items;
      assert from in items ==> items'[from] == items[from];
      ScanAfterAdd(items, n, it, parent, name, from + 1);
    }
  }

  /** A path step that resolved before a fresh item was added resolves to the same item after. */
  lemma {:induction false} WalkAfterAdd(items: Items, n: nat, it: Item, start: nat, segs: seq<string>)
    requires Bounded(items, n)
    requires Walk(items, n, start, segs).Some?
    ensures Walk(items[n := it], n + 1, start, segs) == Walk(items, n, start, segs)
    decreases |segs|
  {
    if segs != [] {
      var init := segs[..|segs| - 1];
      WalkAfterAdd(items, n, it, start, init);
      var c := Walk(items, n, start, init).value;
      ScanAfterAdd(items, n, it, c, segs[|segs| - 1], 0);
    }
  }

  /** Adding a fresh item never makes a resolving path resolve elsewhere. */
  lemma ResolveAfterAdd(items: Items, n: nat, it: Item, path: string)
    requires Bounded(items, n) && n != 0
    requires Resolve(items, n, path).Some?
    ensures Resolve(items[n := it], n + 1, path) == Resolve(items, n, path)
  {
    WalkAfterAdd(items, n, it, 0, Segments(path)[1..]);
  }

  /** `a` and `b` hold the same ids, and each under the same name and parent. */
  predicate SameShape(a: Items, b: Items) {
    && a.Keys == b.Keys
    && forall i :: i in a ==> a[i].name == b[i].name && a[i].parent == b[i].parent
  }

  lemma {:induction false} ScanSameShape(a: Items, b: Items, parent: nat, name: string, from: nat, bound: nat)
    requires SameShape(a, b)
    ensures ScanChild(a, parent, name, from, bound) == ScanChild(b, parent, name, from, bound)
    decreases bound - from
  {
    if from < bound {
      ScanSameShape(a, b, parent, name, from + 1, bound);
    }
  }

  lemma {:induction false} WalkSameShape(a: Items, b: Items, bound: nat, start: nat, segs: seq<string>)
    requires SameShape(a, b)
    ensures Walk(a, bound, start, segs) == Walk(b, bound, start, segs)
    decreases |segs|
  {
    if segs != [] {
      WalkSameShape(a, b, bound, start, segs[..|segs| - 1]);
      match Walk(a, bound, start, segs[..|segs| - 1])
      case None =>
      case Some(c) => ScanSameShape(a, b, c, segs[|segs| - 1], 0, bound);
    }
  }

  /** Edits that keep every name and parent resolve every path as before. */
  lemma ResolveSameShape(a: Items, b: Items, bound: nat, path: string)
    requires SameShape(a, b)
    ensures Resolve(a, bound, path) == Resolve(b, bound, path)
  {
    if Rooted(a, path) {
      WalkSameShape(a, b, bound, 0, Segments(path)[1..]);
    }
  }

  /**
   * The content database. Its items are a map the methods below reassign;
   * `workflowStarts` records, in order, the items a workflow was started on.
   */
  class Database {
    var items: Items
    var nextId: nat
    var languages: seq<Language>
    var templates: map<string, string>
    var standardValues: map<string, map<string, string>>
    var workflowStarts: seq<nat>

    ghost predicate Valid()
      reads this
    {
      0 in items && items[0].parent.None? && Bounded(items, nextId)
    }

    /** A database holding only its root item, `/sitecore`. */
    constructor (languages: seq<Language>, templates: map<string, string>, standardValues: map<string, map<string, string>>)
      ensures Valid()
      ensures items == map[0 := Item("sitecore", None, "root", map[], map[])] && nextId == 1
      ensures this.languages == languages && this.templates == templates
      ensures this.standardValues == standardValues && workflowStarts == []
    {
      items := map[0 := Item("sitecore", None, "root", map[], map[])];
      nextId := 1;
      this.languages := languages;
      this.templates := templates;
      this.standardValues := standardValues;
      workflowStarts := [];
    }

    /** Database.GetItem(path): the item at `path`, if any. */
    function GetItem(path: string): Option<nat>
      reads this
    {
      Resolve(items, nextId, path)
    }

    /** Item.Add(name, template): a new child, with one blank version in `lang`. */
    method AddChild(parent: nat, name: string, template: string, lang: Language) returns (id: nat)
      requires Valid()
      modifies this
      ensures Valid()
      ensures id == old(nextId) && id !in old(items) && id != 0 && nextId == id + 1
      ensures items == old(items)[id := Item(name, Some(parent), template, map[lang := [BlankVersion]], map[])]
      ensures languages == old(languages) && templates == old(templates) && standardValues == old(standardValues) && workflowStarts == old(workflowStarts)
    {
      id := nextId;
      items := items[id := Item(name, Some(parent), template, map[lang := [BlankVersion]], map[])];
      nextId := nextId + 1;
    }

    /**
     * Database.CreateItemPath(path, template): walks the path from the root
     * and adds every missing segment as an item with `template`.
     */
    method CreateItemPath(path: string, template: string, lang: Language) returns (r: Option<nat>)
      requires Valid()
      modifies this
      ensures Valid()
      ensures r.Some? <==> Rooted(old(items), path)
      ensures r.Some? ==> GetItem(path) == r
      ensures r.None? ==> items == old(items) && nextId == old(nextId)
      ensures Grows(old(items), items, template)
      ensures languages == old(languages) && templates == old(templates) && standardValues == old(standardValues) && workflowStarts == old(workflowStarts)
    {
      var segs := Segments(path);
      if !Rooted(items, path) {
        return None;
      }
      var rest := segs[1..];
      var cur: nat := 0;
      var k := 0;
      while k < |rest|
        invariant 0 <= k <= |rest|
        invariant Valid()
        invariant items[0] == old(items)[0]
        invariant Walk(items, nextId, 0, rest[..k]) == Some(cur)
        invariant Grows(old(items), items, template)
        invariant languages == old(languages) && templates == old(templates)
        invariant standardValues == old(standardValues) && workflowStarts == old(workflowStarts)
      {
        ghost var before := items;
        assert rest[..k + 1] == rest[..k] + [rest[k]];
        cur := Descend(cur, rest[..k], rest[k], template, lang);
        GrowsTrans(old(items), before, items, template);
        k := k + 1;
      }
      assert rest[..k] == rest;
      r := Some(cur);
    }

    /** One step of CreateItemPath: the oldest child of `cur` named `seg`, added with `template` when there is none. */
    method Descend(cur: nat, ghost segs: seq<string>, seg: string, template: string, lang: Language) returns (child: nat)
      requires Valid() && Walk(items, nextId, 0, segs) == Some(cur)
      modifies this
      ensures Valid()
      ensures Walk(items, nextId, 0, segs + [seg]) == Some(child)
      ensures Grows(old(items), items, template) && items[0] == old(items)[0]
      ensures languages == old(languages) && templates == old(templates)
      ensures standardValues == old(standardValues) && workflowStarts == old(workflowStarts)
    {
      assert (segs + [seg])[..|segs|] == segs;
      var found := FirstChild(items, nextId, cur, seg);
      if found.None? {
        ghost var before, n := items, nextId;
        child := AddChild(cur, seg, template, lang);
        WalkAfterAdd(before, n, items[child], 0, segs);
        ScanAfterAdd(before, n, items[child], cur, seg, 0);
      } else {
        child := found.value;
      }
    }

    /** Item.Versions.RemoveAll(true): drops every version in every language. */
    method RemoveAllVersions(id: nat)
      requires Valid() && id in items
      modifies this
      ensures Valid()
      ensures items == old(items)[id := old(items)[id].(versions := map[])]
      ensures nextId == old(nextId) && languages == old(languages)
      ensures templates == old(templates) && standardValues == old(standardValues)
      ensures workflowStarts == old(workflowStarts)
    {
      items := items[id := items[id].(versions := map[])];
    }

    /** Item.Versions.AddVersion(): appends one blank version in `lang`. */
    method AddVersion(id: nat, lang: Language)
      requires Valid() && id in items
      modifies this
      ensures Valid()
      ensures var it := old(items)[id];
        items == old(items)[id := it.(versions := it.versions[lang :=
          (if lang in it.versions then it.versions[lang] else []) + [BlankVersion]])]
      ensures nextId == old(nextId) && languages == old(languages)
      ensures templates == old(templates) && standardValues == old(standardValues)
      ensures workflowStarts == old(workflowStarts)
    {
      var it := items[id];
      var vs := if lang in it.versions then it.versions[lang] else [];
      items := items[id := it.(versions := it.versions[lang := vs + [BlankVersion]])];
    }

    /** One edit scope that stores `item` as the new state of `id`. */
    method Store(id: nat, item: Item)
      requires Valid() && id in items && (id == 0 ==> item.parent.None?)
      modifies this
      ensures Valid()
      ensures items == old(items)[id := item]
      ensures nextId == old(nextId) && languages == old(languages)
      ensures templates == old(templates) && standardValues == old(standardValues)
      ensures workflowStarts == old(workflowStarts)
    {
      items := items[id := item];
    }

    /** Workflow.Start(item): recorded, the workflow engine itself is not part of this model. */
    method StartWorkflow(id: nat)
      modifies this`workflowStarts
      ensures workflowStarts == old(workflowStarts) + [id]
    {
      workflowStarts := workflowStarts + [id];
    }
  }
}
