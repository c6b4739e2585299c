/**
 * The prompt-template service: templates are versioned per (name, app), the
 * table is keyed by (name, version), and the read endpoints answer from a
 * query on the name filtered by the calling app, newest version first.
 */
module PromptTemplates {
  import opened Wrappers

  /** One stored template. */
  datatype PromptTemplate = PromptTemplate(id: string, appId: string, name: string, promptTemplate: string, version: int)

  /** TemplateResponse */
  datatype TemplateResponse = TemplateResponse(id: string, name: string, promptTemplate: string, version: int)

  /** The table: hash key name, range key version (the app is only an attribute). */
  type Table = map<(string, int), PromptTemplate>

  function Key(t: PromptTemplate): (string, int)
  {
    (t.name, t.version)
  }

  /** Every item sits under its own key. */
  predicate WellKeyed(table: Table)
  {
    forall k :: k in table ==> Key(table[k]) == k
  }

  /** Newest first: the order of a query with scan_index_forward=False on the version range key. */
  predicate Descending(items: seq<PromptTemplate>)
  {
    forall i, j :: 0 <= i < j < |items| ==> items[i].version > items[j].version
  }

  /** This app's templates called name, as the query on the hash key with the app filter returns them. */
  predicate IsQuery(table: Table, name: string, appId: string, items: seq<PromptTemplate>)
  {
    Descending(items) &&
    (forall i :: 0 <= i < |items| ==> items[i].name == name && items[i].appId == appId &&
                                      Key(items[i]) in table && table[Key(items[i])] == items[i]) &&
    (forall k :: k in table && k.0 == name && table[k].appId == appId ==> table[k] in items)
  }

  // ---------------------------------------------------------------------
  // get_new_version
  // ---------------------------------------------------------------------

  /** get_new_version: the first (newest) item's version + 1, or 1 when the app has no such template. */
  function NewVersion(items: seq<PromptTemplate>): (r: int)
    ensures items == [] ==> r == 1
  {
    if |items| > 0 then items[0].version + 1 else 1
  }

  /**
   * On the app's query the new version is one more than the highest version the app has
   * stored under that name: it is above all of them and one of them is just below it.
   */
  lemma NewVersionIsMaxPlusOne(table: Table, name: string, appId: string, items: seq<PromptTemplate>)
    requires WellKeyed(table) && IsQuery(table, name, appId, items)
    ensures forall k :: k in table && k.0 == name && table[k].appId == appId ==> k.1 < NewVersion(items)
    ensures items != [] ==> exists k :: k in table && k.0 == name && table[k].appId == appId && k.1 == NewVersion(items) - 1
    ensures (name, NewVersion(items)) !in table || table[(name, NewVersion(items))].appId != appId
  {
    forall k | k in table && k.0 == name && table[k].appId == appId ensures k.1 < NewVersion(items) {
      var t := table[k];
      var i :| 0 <= i < |items| && items[i] == t;
      assert k.1 == t.version;
      if i > 0 {
        assert items[0].version > items[i].version;
      }
    }
    if items != [] {
      assert Key(items[0]) in table && Key(items[0]).1 == NewVersion(items) - 1;
    }
  }

  /** save(): the template is written under (name, version), replacing whatever was there. */
  function Save(table: Table, t: PromptTemplate): (r: Table)
    ensures r.Keys == table.Keys + {Key(t)} && r[Key(t)] == t
    ensures forall k :: k in table && k != Key(t) ==> r[k] == table[k]
    ensures WellKeyed(table) ==> WellKeyed(r)
  {
    table[Key(t) := t]
  }

  /** The class holding the template table. */
  class TemplateStore {
    var templates: Table

    constructor ()
      ensures templates == map[]
    {
      templates := map[];
    }

    /**
     * create_prompt_template: items is the query for (name, app); the new template gets the
     * next version and is saved under (name, version).
     */
    method CreatePromptTemplate(appId: string, name: string, text: string, id: string, items: seq<PromptTemplate>) returns (r: TemplateResponse)
      requires IsQuery(templates, name, appId, items)
      modifies this
      ensures r == TemplateResponse(id, name, text, NewVersion(items))
      ensures templates == Save(old(templates), PromptTemplate(id, appId, name, text, NewVersion(items)))
    {
      var version := NewVersion(items);
      var t := PromptTemplate(id, appId, name, text, version);
      templates := Save(templates, t);
      r := TemplateResponse(t.id, t.name, t.promptTemplate, t.version);
    }
  }

  /**
   * Versions are counted per app but keyed without the app: a second app saving a template
   * of the same name gets version 1 and overwrites the first app's version 1.
   */
  lemma CrossAppOverwrite()
    ensures var a := PromptTemplate("id-a", "app-a", "greeting", "Hello {name}", 1);
      var table := map[Key(a) := a];
      var items: seq<PromptTemplate> := [];
      var b := PromptTemplate("id-b", "app-b", "greeting", "Hi", NewVersion(items));
      IsQuery(table, "greeting", "app-b", items) && NewVersion(items) == 1 &&
      Save(table, b)[("greeting", 1)] == b && a !in Save(table, b).Values
  {
    var a := PromptTemplate("id-a", "app-a", "greeting", "Hello {name}", 1);
    var b := PromptTemplate("id-b", "app-b", "greeting", "Hi", 1);
    var r := Save(map[Key(a) := a], b);
    assert r == map[("greeting", 1) := b];
    assert a != b;
  }

  // ---------------------------------------------------------------------
  // The read endpoints.
  // ---------------------------------------------------------------------

  function Response(t: PromptTemplate): TemplateResponse
  {
    TemplateResponse(t.id, t.name, t.promptTemplate, t.version)
  }

  /** The index of the first item with the highest version: sorted(..., reverse=True)[0], the sort being stable. */
  function LatestIndex(items: seq<PromptTemplate>): (r: nat)
    requires items != []
    ensures r < |items|
    ensures forall j :: 0 <= j < |items| ==> items[j].version <= items[r].version
    ensures forall j :: 0 <= j < r ==> items[j].version < items[r].version
  {
    if |items| == 1 then 0
    else
      var rest := LatestIndex(items[1..]);
      assert forall j :: 1 <= j < |items| ==> items[j] == items[1..][j - 1];
      if items[0].version >= items[1..][rest].version then 0 else rest + 1
  }

  /** get_prompt_template: the highest version, or 404 when the app has no template of that name. */
  function GetPromptTemplate(items: seq<PromptTemplate>): (r: Result<TemplateResponse, HttpError>)
    ensures r.Err? <==> items == []
    ensures r.Err? ==> r.error == HttpError(404, "Prompt template not found")
    ensures r.Ok? ==> exists i :: 0 <= i < |items| && r.value == Response(items[i]) &&
                                  forall j :: 0 <= j < |items| ==> items[j].version <= r.value.version
  {
    if |items| == 0 then Err(HttpError(404, "Prompt template not found"))
    else Ok(Response(items[LatestIndex(items)]))
  }

  /** On a newest-first query the latest template is the first item, so it has version NewVersion - 1. */
  lemma LatestIsFirst(items: seq<PromptTemplate>)
    requires Descending(items) && items != []
    ensures GetPromptTemplate(items) == Ok(Response(items[0]))
    ensures GetPromptTemplate(items).value.version == NewVersion(items) - 1
  {
  }

  /** get_all_prompt_template: every version in query order, or 404 when there is none. */
  function GetAllPromptTemplate(items: seq<PromptTemplate>): (r: Result<seq<TemplateResponse>, HttpError>)
    ensures r.Err? <==> items == []
    ensures r.Err? ==> r.error == HttpError(404, "Prompt template not found")
    ensures r.Ok? ==> |r.value| == |items| && forall i :: 0 <= i < |items| ==> r.value[i] == Response(items[i])
  {
    if |items| == 0 then Err(HttpError(404, "Prompt template not found"))
    else Ok(seq(|items|, i requires 0 <= i < |items| => Response(items[i])))
  }

  /** The first item with the given version, if any. */
  function FirstWithVersion(items: seq<PromptTemplate>, vnum: int): (r: Option<PromptTemplate>)
    ensures r.Some? ==> r.value in items && r.value.version == vnum
    ensures r.None? <==> forall i :: 0 <= i < |items| ==> items[i].version != vnum
  {
    if items == [] then None
    else if items[0].version == vnum then Some(items[0])
    else
      var r := FirstWithVersion(items[1..], vnum);
      assert forall i :: 1 <= i < |items| ==> items[i] == items[1..][i - 1];
      r
  }

  /** get_prompt_template_version: the app's template with that exact version, or 404. */
  function GetPromptTemplateVersion(items: seq<PromptTemplate>, vnum: int): (r: Result<TemplateResponse, HttpError>)
    ensures r.Ok? ==> r.value.version == vnum && exists i :: 0 <= i < |items| && r.value == Response(items[i])
    ensures r.Err? <==> forall i :: 0 <= i < |items| ==> items[i].version != vnum
    ensures r.Err? ==> r.error == HttpError(404, "Prompt template version not found")
  {
    var t := FirstWithVersion(items, vnum);
    if t.None? then Err(HttpError(404, "Prompt template version not found")) else Ok(Response(t.value))
  }

  /** The version lookup finds exactly the template stored under (name, vnum) when it is this app's. */
  lemma VersionLookupMatchesTable(table: Table, name: string, appId: string, items: seq<PromptTemplate>, vnum: int)
    requires WellKeyed(table) && IsQuery(table, name, appId, items)
    ensures GetPromptTemplateVersion(items, vnum).Ok? <==> (name, vnum) in table && table[(name, vnum)].appId == appId
    ensures GetPromptTemplateVersion(items, vnum).Ok? ==> GetPromptTemplateVersion(items, vnum).value == Response(table[(name, vnum)])
  {
    var r := GetPromptTemplateVersion(items, vnum);
    if (name, vnum) in table && table[(name, vnum)].appId == appId {
      var i :| 0 <= i < |items| && items[i] == table[(name, vnum)];
      assert items[i].version == vnum;
    }
    if r.Ok? {
      var i :| 0 <= i < |items| && r.value == Response(items[i]);
      assert Key(items[i]) == (name, vnum);
    }
  }

  // ---------------------------------------------------------------------
  // list_prompt_template
  // ---------------------------------------------------------------------

  /** One entry of a name's list: {"version", "prompt_template"}. */
  datatype VersionEntry = VersionEntry(version: int, promptTemplate: string)

  function Entry(t: PromptTemplate): VersionEntry
  {
    VersionEntry(t.version, t.promptTemplate)
  }

  /** The entries of the templates called name, in query order. */
  function EntriesNamed(items: seq<PromptTemplate>, name: string): (r: seq<VersionEntry>)
    ensures |r| <= |items|
  {
    if items == [] then []
    else
      var init := EntriesNamed(items[..|items| - 1], name);
      if items[|items| - 1].name == name then init + [Entry(items[|items| - 1])] else init
  }

  /** The grouped dictionary after the loop has seen items. */
  function Grouped(items: seq<PromptTemplate>): map<string, seq<VersionEntry>>
  {
    if items == [] then map[]
    else
      var g := Grouped(items[..|items| - 1]);
      var t := items[|items| - 1];
      g[t.name := (if t.name in g then g[t.name] else []) + [Entry(t)]]
  }

  /**
   * Each name present in the query has a group, and that group is exactly the entries of the
   * templates with that name, in query order; no other name has a group.
   */
  lemma {:induction false} GroupedByName(items: seq<PromptTemplate>)
    ensures forall n :: n in Grouped(items) <==> exists i :: 0 <= i < |items| && items[i].name == n
    ensures forall n :: n in Grouped(items) ==> Grouped(items)[n] == EntriesNamed(items, n)
  {
    if items != [] {
      var init := items[..|items| - 1];
      var t := items[|items| - 1];
      GroupedByName(init);
      forall n ensures n in Grouped(items) <==> exists i :: 0 <= i < |items| && items[i].name == n {
        if n in Grouped(items) && n != t.name {
          assert n in Grouped(init);
          var i :| 0 <= i < |init| && init[i].name == n;
          assert items[i] == init[i];
        }
        if n != t.name && exists i :: 0 <= i < |items| && items[i].name == n {
          var i :| 0 <= i < |items| && items[i].name == n;
          assert init[i] == items[i];
        }
      }
      forall n | n in Grouped(items) ensures Grouped(items)[n] == EntriesNamed(items, n) {
        if n == t.name && n !in Grouped(init) {
          EntriesNamedEmpty(init, n);
        }
      }
    }
  }

  /** A name that appears in no item has no entries. */
  lemma {:induction false} EntriesNamedEmpty(items: seq<PromptTemplate>, name: string)
    requires forall i :: 0 <= i < |items| ==> items[i].name != name
    ensures EntriesNamed(items, name) == []
  {
    if items != [] {
      EntriesNamedEmpty(items[..|items| - 1], name);
    }
  }

  /** Every item's entry is in its name's group exactly as many times as the item occurs among that name's items. */
  lemma {:induction false} EntriesCount(items: seq<PromptTemplate>, name: string)
    ensures |EntriesNamed(items, name)| == |set i | 0 <= i < |items| && items[i].name == name|
  {
    if items != [] {
      var init := items[..|items| - 1];
      EntriesCount(init, name);
      var s := set i | 0 <= i < |items| && items[i].name == name;
      var s0 := set i | 0 <= i < |init| && init[i].name == name;
      if items[|items| - 1].name == name {
        assert s == s0 + {|items| - 1};
      } else {
        assert s == s0;
      }
    }
  }

  /**
   * list_prompt_template: items is the app's templates from the app-id index; each is appended
   * to the list of its name.
   */
  method ListPromptTemplate(items: seq<PromptTemplate>) returns (grouped: map<string, seq<VersionEntry>>)
    ensures grouped == Grouped(items)
    ensures forall n :: n in grouped <==> exists i :: 0 <= i < |items| && items[i].name == n
    ensures forall n :: n in grouped ==> grouped[n] == EntriesNamed(items, n)
  {
    grouped := map[];
    var k := 0;
    while k < |items|
      invariant 0 <= k <= |items|
      invariant grouped == Grouped(items[..k])
    {
      var item := items[k];
      var versions := if item.name in grouped then grouped[item.name] else [];
      grouped := grouped[item.name := versions + [Entry(item)]];
      assert items[..k + 1][..k] == items[..k];
      k := k + 1;
    }
    assert items[..k] == items;
    GroupedByName(items);
  }
}
