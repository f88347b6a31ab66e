/**
 * The request helpers of client/api.js: the category list of the rescue page and the two
 * administrator endpoints. Each takes what `fetch` produced as a parameter; a rejected
 * promise is an `Err` carrying the message of the error thrown.
 */
module ClientApi {
  import opened JsRuntime
  import opened Seqs

  /** One category as the rescue page shows it. */
  datatype CategoryEntry = CategoryEntry(id: string, name: string, imageUrl: string)

  /** `String(x.k ?? '')` */
  function TextField(x: Value, key: string): string {
    ToStr(Coalesce(Prop(x, key), Str("")))
  }

  /** The object the `map` callback builds from a non-nullish element. */
  function EntryOf(x: Value): (e: CategoryEntry)
    requires !Nullish(x)
    ensures Prop(x, "id").Str? ==> e.id == Prop(x, "id").s
    ensures Prop(x, "name").Str? ==> e.name == Prop(x, "name").s
    ensures Nullish(Prop(x, "id")) ==> e.id == ""
    ensures Nullish(Prop(x, "name")) ==> e.name == ""
    ensures Nullish(Prop(x, "imageUrl")) ==> e.imageUrl == ""
  {
    CategoryEntry(TextField(x, "id"), TextField(x, "name"), TextField(x, "imageUrl"))
  }

  /** `x.id && x.name` on the mapped entry. */
  predicate Listed(e: CategoryEntry) { e.id != "" && e.name != "" }

  predicate NoneNullish(items: seq<Value>) {
    forall k :: 0 <= k < |items| ==> !Nullish(items[k])
  }

  /** Every element mapped, before the filter. */
  function Entries(items: seq<Value>): (es: seq<CategoryEntry>)
    requires NoneNullish(items)
    ensures |es| == |items|
  {
    seq(|items|, k requires 0 <= k < |items| => EntryOf(items[k]))
  }

  /** `normalizeCategories(items)` on an array: reading `x.id` of a nullish element throws;
      otherwise the entries with a non-empty id and name, in their order. Duplicated ids
      are not merged. */
  function NormalizeEntries(items: seq<Value>): (r: Result<seq<CategoryEntry>>)
    ensures r.Err? <==> !NoneNullish(items)
    ensures r.Err? ==> r.message == TypeErrorMessage
    ensures r.Ok? ==> |r.value| <= |items|
    ensures r.Ok? ==> forall k :: 0 <= k < |r.value| ==> Listed(r.value[k])
    ensures r.Ok? ==> IsSubsequence(r.value, Entries(items)) && |r.value| == Count(Entries(items), Listed)
  {
    if !NoneNullish(items) then Err(TypeErrorMessage)
    else
      FilterIsSubsequence(Entries(items), Listed);
      Ok(Filter(Entries(items), Listed))
  }

  /** Nothing with a usable id and name is lost: every such element is in the result. */
  lemma NormalizeEntriesKeeps(items: seq<Value>, k: nat)
    requires NoneNullish(items) && k < |items| && Listed(EntryOf(items[k]))
    ensures NormalizeEntries(items).Ok? && EntryOf(items[k]) in NormalizeEntries(items).value
  {
    FilterMembers(Entries(items), Listed);
    assert Entries(items)[k] == EntryOf(items[k]);
  }

  /** Two rows with the same id both survive. */
  lemma NormalizeEntriesKeepsDuplicates(id: string, a: string, b: string)
    requires id != "" && a != "" && b != ""
    ensures var items := [Obj(map["id" := Str(id), "name" := Str(a)]), Obj(map["id" := Str(id), "name" := Str(b)])];
      NormalizeEntries(items) == Ok([CategoryEntry(id, a, ""), CategoryEntry(id, b, "")])
  {
    var items := [Obj(map["id" := Str(id), "name" := Str(a)]), Obj(map["id" := Str(id), "name" := Str(b)])];
    var es := [CategoryEntry(id, a, ""), CategoryEntry(id, b, "")];
    assert Entries(items) == es;
    FilterAllKept(es, Listed);
  }

  /** The error thrown for a reply whose body is not `ok`: `j.error || 'upstream_error'`. */
  function UpstreamMessage(j: Value): string {
    ToStr(Or(Prop(j, "error"), Str("upstream_error")))
  }

  /** `j.items || []` */
  function ItemsOf(j: Value): (v: Value)
    ensures Truthy(Prop(j, "items")) ==> v == Prop(j, "items")
    ensures !Truthy(Prop(j, "items")) ==> v == Arr([])
  {
    Or(Prop(j, "items"), Arr([]))
  }

  /** `fetchCategories()` of client/api.js. */
  function FetchCategories(fetched: Fetched): (r: Result<seq<CategoryEntry>>)
    ensures fetched.NetworkError? ==> r == Err(fetched.message)
    ensures fetched.Received? && !StatusOk(fetched.reply.status) ==>
      r == Err("categories " + IntToString(fetched.reply.status))
    ensures fetched.Received? && StatusOk(fetched.reply.status) ==>
      var json := fetched.reply.json;
      && (json.Err? ==> r == Err(json.message))
      && (json.Ok? && Nullish(json.value) ==> r == Err(TypeErrorMessage))
      && (json.Ok? && !Nullish(json.value) && !Truthy(Prop(json.value, "ok")) ==>
            r == Err(UpstreamMessage(json.value)))
      && (json.Ok? && !Nullish(json.value) && Truthy(Prop(json.value, "ok")) ==>
            r == if ItemsOf(json.value).Arr? then NormalizeEntries(ItemsOf(json.value).elems)
                 else Err(TypeErrorMessage))
    ensures r.Ok? ==>
      && fetched.Received? && StatusOk(fetched.reply.status) && fetched.reply.json.Ok?
      && Truthy(Prop(fetched.reply.json.value, "ok"))
    ensures r.Ok? ==> forall k :: 0 <= k < |r.value| ==> Listed(r.value[k])
  {
    match fetched
    case NetworkError(m) => Err(m)
    case Received(reply) =>
      if !StatusOk(reply.status) then Err("categories " + IntToString(reply.status))
      else
        var j :- reply.json;
        var ok :- Get(j, "ok");
        if !Truthy(ok) then Err(UpstreamMessage(j))
        else
          var items := ItemsOf(j);
          if !items.Arr? then Err(TypeErrorMessage)
          else NormalizeEntries(items.elems)
  }

  /** A reply whose body is not `ok` is reported with the server's error text, or
      `upstream_error` when it has none. */
  lemma FetchCategoriesUpstreamError(status: int, text: string, body: map<string, Value>)
    requires StatusOk(status) && ("ok" !in body || !Truthy(body["ok"]))
    ensures var r := FetchCategories(Received(Reply(status, text, Ok(Obj(body)))));
      && ("error" in body && body["error"].Str? && body["error"].s != "" ==> r == Err(body["error"].s))
      && ("error" !in body ==> r == Err("upstream_error"))
  {
  }

  /** A body that is `ok` without a truthy `items` field yields an empty list. */
  lemma FetchCategoriesWithoutItems(status: int, text: string, body: map<string, Value>)
    requires StatusOk(status)
    requires "ok" in body && Truthy(body["ok"])
    requires "items" !in body || !Truthy(body["items"])
    ensures FetchCategories(Received(Reply(status, text, Ok(Obj(body))))) == Ok([])
  {
    assert Filter<CategoryEntry>([], Listed) == [];
  }

  /** `isAdmin(userId)`: a reply that is not ok reads as "not an administrator"; an ok
      reply is passed through as parsed, and a failed fetch or parse rejects. */
  function IsAdmin(fetched: Fetched): (r: Result<Value>)
    ensures fetched.NetworkError? ==> r == Err(fetched.message)
    ensures fetched.Received? && !StatusOk(fetched.reply.status) ==> r == Ok(NotAdminReply)
    ensures fetched.Received? && StatusOk(fetched.reply.status) ==> r == fetched.reply.json
  {
    match fetched
    case NetworkError(m) => Err(m)
    case Received(reply) =>
      if !StatusOk(reply.status) then Ok(NotAdminReply) else reply.json
  }

  /** `registerAdmin(userId, displayName)`: the parsed body whatever the status. */
  function RegisterAdmin(fetched: Fetched): (r: Result<Value>)
    ensures fetched.NetworkError? ==> r == Err(fetched.message)
    ensures fetched.Received? ==> r == fetched.reply.json
  {
    match fetched
    case NetworkError(m) => Err(m)
    case Received(reply) => reply.json
  }

  /** Unlike `isAdmin`, `registerAdmin` hands an error status's body on as if it were a
      success: a 500 reply saying `ok: true` reads the same as a 200 one. */
  lemma RegisterAdminIgnoresStatus(text: string, body: Value)
    ensures RegisterAdmin(Received(Reply(500, text, Ok(body)))) == RegisterAdmin(Received(Reply(200, text, Ok(body))))
    ensures IsAdmin(Received(Reply(500, text, Ok(body)))) == Ok(NotAdminReply)
  {
  }
}
