/** The change ledger: a key-value table keyed by document id, holding the last snapshot each
    scanner stored for a document, and the comparison both scanners make against it. */
module Ledger {
  import opened Wrappers
  import opened Drive

  /** An item of the table. Items the scanners write are document snapshots; an item may lack
      the `modifiedTime` attribute. */
  datatype Item = Item(id: string, name: string, modifiedTime: Option<string>)

  /** The item `put_item(Item=gSheet)` stores for a listed document. */
  function Snapshot(d: Doc): Item {
    Item(d.id, d.name, Some(d.modifiedTime))
  }

  /** Every item is stored under its own id: at most one item per document id. */
  predicate KeyedById(items: map<string, Item>) {
    forall k :: k in items ==> items[k].id == k
  }

  /** The query by id: the stored item, or `None` when no item has that id. */
  function Get(items: map<string, Item>, id: string): Option<Item> {
    if id in items then Some(items[id]) else None
  }

  /** `put_item`: an upsert under the item's id. */
  function Put(items: map<string, Item>, item: Item): map<string, Item> {
    items[item.id := item]
  }

  /** After a put, the query for that id returns the item just put and every other id is as before;
      the table stays keyed by id. */
  lemma PutThenGet(items: map<string, Item>, item: Item, k: string)
    requires KeyedById(items)
    ensures KeyedById(Put(items, item))
    ensures Get(Put(items, item), k) == if k == item.id then Some(item) else Get(items, k)
  {
  }

  /** How a listed document stands against the ledger. */
  datatype Class = New | Unchanged | Changed

  /** The stored time as the scanners read it: `item.get('modifiedTime', '')`. */
  function StoredTime(item: Item): string {
    item.modifiedTime.GetOr("")
  }

  /** No item: `New`; stored time equal to the listed one: `Unchanged`; otherwise `Changed`. */
  function Classify(stored: Option<Item>, d: Doc): Class {
    if stored.None? then New
    else if StoredTime(stored.value) == d.modifiedTime then Unchanged
    else Changed
  }

  /** A document whose own snapshot is stored is unchanged; an item without `modifiedTime`
      counts as unchanged exactly for a document listed with an empty time. */
  lemma ClassifyStored(d: Doc, name: string)
    ensures Classify(Some(Snapshot(d)), d) == Unchanged
    ensures Classify(Some(Item(d.id, name, None)), d) == Unchanged <==> d.modifiedTime == ""
  {
  }

  /** The ledger table. */
  class Table {
    var items: map<string, Item>

    ghost predicate Valid()
      reads this
    {
      KeyedById(items)
    }

    /** The table as the scan finds it. */
    constructor (initial: map<string, Item>)
      requires KeyedById(initial)
      ensures Valid() && items == initial
    {
      items := initial;
    }

    /** `dynamo_add_gsheet_record`: overwrites the item stored under `item.id`. */
    method PutItem(item: Item)
      requires Valid()
      modifies this
      ensures Valid() && items == Put(old(items), item)
    {
      items := items[item.id := item];
    }

    /** `dynamo_find_gsheet_record`: the first item the query by id returns, or `None`. The item
        returned carries the id asked for. */
    method Query(id: string) returns (r: Option<Item>)
      requires Valid()
      ensures r.Some? <==> id in items
      ensures r.Some? ==> r.value == items[id] && r.value.id == id
    {
      if id in items {
        r := Some(items[id]);
      } else {
        r := None;
      }
    }
  }
}
