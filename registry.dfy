/** The client registry lookup of `importSheet`: the registry is a list of client configurations and
    the first one whose `order_url` contains the document id wins. */
module Registry {
  import opened Wrappers
  import opened Text

  /** One registry entry: the fields `importSheet` reads and passes on to `order_upload`. */
  datatype ClientConfig = ClientConfig(
    orderUrl: string,
    activeClient: bool,
    tableName: string,
    adjCli: string,
    awsSchema: string,
    recomendation: bool)

  /** The position of the first entry whose `order_url` contains `id`, if any. */
  function FirstMatch(registry: seq<ClientConfig>, id: string): (r: Option<nat>)
    ensures r.Some? ==> r.value < |registry| && IsSubstring(id, registry[r.value].orderUrl)
    ensures r.Some? ==> forall j :: 0 <= j < r.value ==> !IsSubstring(id, registry[j].orderUrl)
    ensures r.None? ==> forall j :: 0 <= j < |registry| ==> !IsSubstring(id, registry[j].orderUrl)
  {
    if registry == [] then None
    else if Contains(registry[0].orderUrl, id) then Some(0)
    else match FirstMatch(registry[1..], id)
      case None => None
      case Some(k) => Some(k + 1)
  }

  /** Entries appended after a matching one never change the winner, however well they match. */
  lemma {:induction false} LaterEntriesIgnored(registry: seq<ClientConfig>, more: seq<ClientConfig>, id: string)
    requires FirstMatch(registry, id).Some?
    ensures FirstMatch(registry + more, id) == FirstMatch(registry, id)
  {
    var k := FirstMatch(registry, id).value;
    assert (registry + more)[k] == registry[k];
    assert forall j :: 0 <= j < k ==> (registry + more)[j] == registry[j];
  }

  /** The `for client in client_list` loop with its `break`: the `order_url` it leaves behind ('' when
      nothing matched) and the entry it stopped at. */
  method FindClient(registry: seq<ClientConfig>, id: string) returns (orderUrl: string, client: Option<ClientConfig>)
    ensures client.Some? <==> FirstMatch(registry, id).Some?
    ensures client.Some? ==> client.value == registry[FirstMatch(registry, id).value]
    ensures orderUrl == if client.Some? then client.value.orderUrl else ""
  {
    orderUrl := "";
    client := None;
    for i := 0 to |registry|
      invariant forall j :: 0 <= j < i ==> !IsSubstring(id, registry[j].orderUrl)
    {
      if Contains(registry[i].orderUrl, id) {
        orderUrl := registry[i].orderUrl;
        client := Some(registry[i]);
        return;
      }
    }
  }

  /** What `importSheet` does after the lookup: go on for a non-empty `order_url`, skip otherwise. */
  datatype Decision = Upload(client: ClientConfig) | Skip

  function Decide(registry: seq<ClientConfig>, id: string): Decision {
    match FirstMatch(registry, id)
    case Some(k) => if registry[k].orderUrl != "" then Upload(registry[k]) else Skip
    case None => Skip
  }

  /** For a non-empty id, the document is skipped exactly when no entry's `order_url` contains it,
      and otherwise goes on with the first entry that does. */
  lemma DecideByMatch(registry: seq<ClientConfig>, id: string)
    requires id != ""
    ensures Decide(registry, id) == Skip <==> forall j :: 0 <= j < |registry| ==> !IsSubstring(id, registry[j].orderUrl)
    ensures Decide(registry, id).Upload? ==> Decide(registry, id).client == registry[FirstMatch(registry, id).value]
  {
    match FirstMatch(registry, id)
    case None =>
    case Some(k) =>
      var i: nat :| OccursAt(id, registry[k].orderUrl, i);
      assert |registry[k].orderUrl| >= |id| > 0;
  }

  /** The empty id is contained in every `order_url`, so it resolves to the first entry. */
  lemma EmptyIdMatchesFirst(registry: seq<ClientConfig>)
    requires registry != []
    ensures FirstMatch(registry, "") == Some(0)
  {
    assert Contains(registry[0].orderUrl, "");
  }
}
