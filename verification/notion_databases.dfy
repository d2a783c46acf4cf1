/**
 * The static table NOTION_DATABASES from which database names are resolved.
 * The trigger task and the HTTP route each declare the same five entries.
 */
module NotionDatabases {
  import opened Common

  /** The entries of NOTION_DATABASES in declaration order: (key, database id). */
  const Table: seq<(string, string)> := [
    ("QBO_PROJECTS", "6bf327c6c1454c71a797baca43635424"),
    ("BUYER_INFORMATION", "0fb39294c1c04b9dbe436fdf9dc77d7c"),
    ("SKU_INFORMATION", "7c50b7c96b004b71bacc271941240ff3"),
    ("SUPPLIER_INFORMATION", "0ea639b92bc4469c95d96c4731293d40"),
    ("PROJECT_TRANSACTIONS", "2e913dfc17cf4e27a42487d316b3a18b")
  ]

  /** `Object.keys(NOTION_DATABASES)`: the keys in declaration order. */
  function Keys(): (keys: seq<string>)
    ensures |keys| == |Table|
    ensures forall i :: 0 <= i < |Table| ==> keys[i] == Table[i].0
  {
    seq(|Table|, i requires 0 <= i < |Table| => Table[i].0)
  }

  predicate DistinctKeys(entries: seq<(string, string)>)
  {
    forall i, j :: 0 <= i < j < |entries| ==> entries[i].0 != entries[j].0
  }

  /** Property lookup on an object literal: the id of the first entry with that key, or `undefined`. */
  function LookupIn(entries: seq<(string, string)>, name: string): (id: Option<string>)
    ensures id.None? <==> forall i :: 0 <= i < |entries| ==> entries[i].0 != name
    ensures id.Some? ==> exists i :: 0 <= i < |entries| && entries[i] == (name, id.value)
                                      && forall j :: 0 <= j < i ==> entries[j].0 != name
    decreases |entries|
  {
    if entries == [] then None
    else if entries[0].0 == name then Some(entries[0].1)
    else
      var rest := LookupIn(entries[1..], name);
      assert forall i :: 1 <= i < |entries| ==> entries[i] == entries[1..][i - 1];
      if rest.Some? then
        ghost var k :| 0 <= k < |entries| - 1 && entries[1..][k] == (name, rest.value)
                      && forall j :: 0 <= j < k ==> entries[1..][j].0 != name;
        assert entries[k + 1] == (name, rest.value);
        rest
      else rest
  }

  /** `NOTION_DATABASES[name]`: defined exactly for the five keys, each giving its own id. */
  function Lookup(name: string): (id: Option<string>)
    ensures id.Some? <==> name in Keys()
    ensures forall i :: 0 <= i < |Table| && Table[i].0 == name ==> id == Some(Table[i].1)
  {
    TableKeysDistinct();
    LookupIn(Table, name)
  }

  lemma TableKeysDistinct()
    ensures DistinctKeys(Table)
  {
  }
}
