/** The Trello commands of trello_commands.py: a stub tool dispatcher standing in for the MCP.run
    client, and two commands that ask it for the board's lists or a list's cards and turn the
    answer into table rows. The Rich table is reduced to its title and its rows of cell texts. */
module TrelloCommands {
  import opened JsonValues

  const ListsTitle := "📋 Listas do Trello"
  const CardsTitlePrefix := "🗂️ Cards da Lista "
  const DefaultListId := "list1"
  const NotImplementedMessage := "Comando não implementado na simulação"
  /** Descriptions longer than this are cut and marked with an ellipsis. */
  const DescLimit := 50
  const Ellipsis := "..."

  function ListEntry(id: string, name: string, cardCount: int): Json {
    JObj(map["id" := JStr(id), "name" := JStr(name), "cardCount" := JNum(cardCount)])
  }

  function CardEntry(id: string, name: string, desc: string): Json {
    JObj(map["id" := JStr(id), "name" := JStr(name), "desc" := JStr(desc)])
  }

  /** The board's lists as the stub reports them. */
  const SampleLists: seq<Json> := [
    ListEntry("list1", "Tarefas", 3),
    ListEntry("list2", "Em Progresso", 2),
    ListEntry("list3", "Concluído", 5)
  ]

  /** The cards of list1 as the stub reports them. */
  const SampleCards: seq<Json> := [
    CardEntry("card1", "Implementar CLI", "Criar CLI para Trello"),
    CardEntry("card2", "Testar comandos", "Verificar funcionamento"),
    CardEntry("card3", "Documentar API", "Criar documentação")
  ]

  /** The stub `MCPRunClient.run_tool`: `get_lists` answers the fixed lists whatever the params,
      `get_cards_by_list_id` answers the fixed cards for listId "list1" and no cards for any other
      (or no) listId, and every other tool name answers an error record. */
  function MockRunTool(name: string, params: map<string, Json>): (r: map<string, Json>)
    ensures name == "get_lists" ==> r == map["lists" := JArr(SampleLists)]
    ensures name == "get_cards_by_list_id" ==>
      (r == map["cards" := JArr(SampleCards)] <==> Get(params, "listId", JNull) == JStr(DefaultListId))
    ensures name == "get_cards_by_list_id" && Get(params, "listId", JNull) != JStr(DefaultListId) ==>
      r == map["cards" := JArr([])]
    ensures name != "get_lists" && name != "get_cards_by_list_id" ==>
      r.Keys == {"error"} && r["error"] == JStr(NotImplementedMessage)
    ensures "error" in r <==> name != "get_lists" && name != "get_cards_by_list_id"
  {
    if name == "get_lists" then
      map["lists" := JArr(SampleLists)]
    else if name == "get_cards_by_list_id" then
      if Get(params, "listId", JNull) == JStr(DefaultListId) then map["cards" := JArr(SampleCards)]
      else
        var none := map["cards" := JArr([])];
        assert none["cards"] != JArr(SampleCards);
        none
    else
      map["error" := JStr(NotImplementedMessage)]
  }

  /** The stub's answer to `get_lists` does not depend on the params. */
  lemma GetListsIgnoresParams(p: map<string, Json>, q: map<string, Json>)
    ensures MockRunTool("get_lists", p) == MockRunTool("get_lists", q)
  {
  }

  /** The description cell: at most 50 characters of `desc`, followed by "..." when it was longer. */
  function Truncate(desc: string): (r: string)
    ensures |desc| <= DescLimit ==> r == desc
    ensures |desc| > DescLimit ==> r == desc[..DescLimit] + Ellipsis && |r| == DescLimit + |Ellipsis|
    ensures |r| <= DescLimit + |Ellipsis|
    ensures var k := if |desc| < DescLimit then |desc| else DescLimit; |r| >= k && r[..k] == desc[..k]
  {
    var cut := if |desc| < DescLimit then desc else desc[..DescLimit];
    cut + (if |desc| > DescLimit then Ellipsis else "")
  }

  /** Cutting a description twice cuts it once. */
  lemma TruncateIdempotent(desc: string)
    ensures Truncate(Truncate(desc)) == Truncate(desc)
  {
  }

  /** The descriptions shown as they are: the short ones, and the 53-character ones that already
      end in "..." after their first 50 characters. */
  lemma TruncateFixedPoints(desc: string)
    ensures Truncate(desc) == desc <==>
      |desc| <= DescLimit || (|desc| == DescLimit + |Ellipsis| && desc[DescLimit..] == Ellipsis)
  {
  }

  /** One table row: the id, the name, and the third column (card count or description). */
  datatype Row = Row(id: string, name: string, detail: string)

  /** What a command ends with: the error of an error answer printed, the table printed, or an
      exception caught and printed. */
  datatype Shown = ErrorShown(error: Json) | TableShown(title: string, rows: seq<Row>) | Failed

  /** The text of a table cell handed `j`: Rich renders a str as itself and None as an empty cell,
      and raises on anything else. */
  function Cell(j: Json): (r: Option<string>)
    ensures r.Some? <==> j.JStr? || j.JNull?
    ensures j.JStr? ==> r == Some(j.s)
    ensures j.JNull? ==> r == Some("")
  {
    match j
    case JStr(s) => Some(s)
    case JNull => Some("")
    case _ => None
  }

  /** A cell taken from `m[key]` can be shown: the key is missing (its default is a str) or holds a
      str or None. */
  predicate RenderableOrAbsent(m: map<string, Json>, key: string) {
    key !in m || m[key].JStr? || m[key].JNull?
  }

  /** The row for one entry of the lists answer; None when building it raises (the entry is not a
      dict, or its id or name cannot be rendered). Missing id and name show as "N/A", a missing
      card count as "0". */
  function ListRow(entry: Json): (r: Option<Row>)
    ensures !entry.JObj? ==> r.None?
    ensures entry.JObj? ==>
      (r.Some? <==> RenderableOrAbsent(entry.fields, "id") && RenderableOrAbsent(entry.fields, "name"))
    ensures entry.JObj? && r.Some? ==>
      ("id" !in entry.fields ==> r.value.id == "N/A") &&
      ("id" in entry.fields ==> Cell(entry.fields["id"]) == Some(r.value.id)) &&
      ("name" !in entry.fields ==> r.value.name == "N/A") &&
      ("name" in entry.fields ==> Cell(entry.fields["name"]) == Some(r.value.name)) &&
      ("cardCount" !in entry.fields ==> r.value.detail == "0") &&
      ("cardCount" in entry.fields ==> r.value.detail == PyStr(entry.fields["cardCount"]))
    ensures forall id, name, n :: entry == ListEntry(id, name, n) ==> r == Some(Row(id, name, PyStr(JNum(n))))
  {
    match entry
    case JObj(m) =>
      var id := Cell(Get(m, "id", JStr("N/A")));
      var name := Cell(Get(m, "name", JStr("N/A")));
      var count := PyStr(Get(m, "cardCount", JNum(0)));
      if id.Some? && name.Some? then Some(Row(id.value, name.value, count)) else None
    case _ => None
  }

  /** The row for one entry of the cards answer; None when building it raises (the entry is not a
      dict, its id or name cannot be rendered, or its description is not a str). Missing id and
      name show as "N/A", a missing description as "". */
  function CardRow(entry: Json): (r: Option<Row>)
    ensures !entry.JObj? ==> r.None?
    ensures entry.JObj? ==>
      (r.Some? <==>
        RenderableOrAbsent(entry.fields, "id") && RenderableOrAbsent(entry.fields, "name") &&
        ("desc" !in entry.fields || entry.fields["desc"].JStr?))
    ensures entry.JObj? && r.Some? ==>
      ("id" !in entry.fields ==> r.value.id == "N/A") &&
      ("id" in entry.fields ==> Cell(entry.fields["id"]) == Some(r.value.id)) &&
      ("name" !in entry.fields ==> r.value.name == "N/A") &&
      ("name" in entry.fields ==> Cell(entry.fields["name"]) == Some(r.value.name)) &&
      ("desc" !in entry.fields ==> r.value.detail == "") &&
      ("desc" in entry.fields ==> entry.fields["desc"].JStr? && r.value.detail == Truncate(entry.fields["desc"].s))
    ensures forall id, name, desc :: entry == CardEntry(id, name, desc) ==> r == Some(Row(id, name, Truncate(desc)))
  {
    match entry
    case JObj(m) =>
      var id := Cell(Get(m, "id", JStr("N/A")));
      var name := Cell(Get(m, "name", JStr("N/A")));
      var desc := Get(m, "desc", JStr(""));
      if id.Some? && name.Some? && desc.JStr? then Some(Row(id.value, name.value, Truncate(desc.s))) else None
    case _ => None
  }

  /** The entries `for x in j:` hands to a loop body that calls `x.get(...)` on each: the items of a
      list, none for an empty str or dict, and None when the loop raises before any row is added
      (the value is not iterable, or its first element is a character or a key, a str without `get`). */
  function Entries(j: Json): (r: Option<seq<Json>>)
    ensures j.JArr? ==> r == Some(j.items)
    ensures j == JStr("") || j == JObj(map[]) ==> r == Some([])
    ensures !j.JArr? && j != JStr("") && j != JObj(map[]) ==> r.None?
  {
    match j
    case JArr(xs) => Some(xs)
    case JStr(s) => if s == "" then Some([]) else None
    case JObj(m) => if m == map[] then Some([]) else None
    case _ => None
  }

  /** The rows of the table, one per entry and in the entries' order; None if some entry's row
      raises (the loop stops there and the table is never printed). */
  method AddRows(entries: seq<Json>, rowOf: Json -> Option<Row>) returns (rows: Option<seq<Row>>)
    ensures rows.Some? <==> forall i :: 0 <= i < |entries| ==> rowOf(entries[i]).Some?
    ensures rows.Some? ==>
      |rows.value| == |entries| && forall i :: 0 <= i < |entries| ==> rowOf(entries[i]) == Some(rows.value[i])
  {
    var added: seq<Row> := [];
    var i := 0;
    while i < |entries|
      invariant 0 <= i <= |entries|
      invariant |added| == i
      invariant forall k :: 0 <= k < i ==> rowOf(entries[k]) == Some(added[k])
    {
      var row := rowOf(entries[i]);
      if row.None? {
        return None;
      }
      added := added + [row.value];
      i := i + 1;
    }
    return Some(added);
  }

  /** The body shared by both commands: an answer holding "error" prints that error and stops;
      otherwise the entries under `key` (none when the key is missing) become the rows of a table
      titled `title`, unless building some row raises. */
  method ShowTable(response: map<string, Json>, key: string, title: string, rowOf: Json -> Option<Row>)
    returns (out: Shown)
    ensures "error" in response ==> out == ErrorShown(response["error"])
    ensures "error" !in response ==>
      var entries := Entries(Get(response, key, JArr([])));
      (out.TableShown? <==> entries.Some? && forall i :: 0 <= i < |entries.value| ==> rowOf(entries.value[i]).Some?)
    ensures out.TableShown? ==>
      var entries := Entries(Get(response, key, JArr([]))).value;
      out.title == title && |out.rows| == |entries| &&
      forall i :: 0 <= i < |entries| ==> rowOf(entries[i]) == Some(out.rows[i])
    ensures out.ErrorShown? <==> "error" in response
  {
    if "error" in response {
      return ErrorShown(response["error"]);
    }
    var entries := Entries(Get(response, key, JArr([])));
    if entries.None? {
      return Failed;
    }
    var rows := AddRows(entries.value, rowOf);
    if rows.None? {
      return Failed;
    }
    return TableShown(title, rows.value);
  }

  /** The `listar-listas` command: the stub's three lists, one row each, in order. */
  method ListListsCommand() returns (out: Shown)
    ensures out == TableShown(ListsTitle, [
      Row("list1", "Tarefas", "3"),
      Row("list2", "Em Progresso", "2"),
      Row("list3", "Concluído", "5")])
  {
    var response := MockRunTool("get_lists", map["random_string" := JStr("dummy")]);
    out := ShowTable(response, "lists", ListsTitle, ListRow);
    assert NatToString(3) == "3" && NatToString(2) == "2" && NatToString(5) == "5";
    assert out.rows[0] == Row("list1", "Tarefas", "3");
    assert out.rows[1] == Row("list2", "Em Progresso", "2");
    assert out.rows[2] == Row("list3", "Concluído", "5");
  }

  /** The list a `listar-cards` call shows: the argument, or "list1" when it is missing or empty. */
  function CardsListId(listaId: Option<string>): (r: string)
    ensures r != ""
    ensures listaId.Some? && listaId.value != "" ==> r == listaId.value
    ensures listaId.None? || listaId.value == "" ==> r == DefaultListId
  {
    StrOr(listaId, DefaultListId)
  }

  /** The `listar-cards` command: the stub is asked for the defaulted list id, which also titles the
      table; list1 shows the three cards in order, any other list an empty table. */
  method ListCardsCommand(listaId: Option<string>) returns (out: Shown)
    ensures out.TableShown? && out.title == CardsTitlePrefix + CardsListId(listaId)
    ensures CardsListId(listaId) == DefaultListId ==> out.rows == [
      Row("card1", "Implementar CLI", "Criar CLI para Trello"),
      Row("card2", "Testar comandos", "Verificar funcionamento"),
      Row("card3", "Documentar API", "Criar documentação")]
    ensures CardsListId(listaId) != DefaultListId ==> out.rows == []
  {
    var listId := CardsListId(listaId);
    var response := MockRunTool("get_cards_by_list_id", map["listId" := JStr(listId)]);
    out := ShowTable(response, "cards", CardsTitlePrefix + listId, CardRow);
    if listId == DefaultListId {
      assert Entries(Get(response, "cards", JArr([]))) == Some(SampleCards);
      SampleCardRows();
    } else {
      assert Entries(Get(response, "cards", JArr([]))) == Some([]);
    }
  }

  /** The stub's cards all have short descriptions, so each row shows its card as given. */
  lemma SampleCardRows()
    ensures CardRow(SampleCards[0]) == Some(Row("card1", "Implementar CLI", "Criar CLI para Trello"))
    ensures CardRow(SampleCards[1]) == Some(Row("card2", "Testar comandos", "Verificar funcionamento"))
    ensures CardRow(SampleCards[2]) == Some(Row("card3", "Documentar API", "Criar documentação"))
  {
  }
}
