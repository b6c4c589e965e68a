/** The hosted database, seen as an in-memory store: one map per table,
    keyed by row id, and the eco-point ledger as an append-only list.
    `update(...).eq('id', id)` on a table is `UpdateRow`; `insert` is a map
    assignment under an id the database would have generated. */
module Database {
  import opened Records

  class Db {
    var items: map<string, Item>
    var quotes: map<string, Quote>
    var repairs: map<string, Repair>
    var profiles: map<string, Profile>
    var repairerProfiles: map<string, RepairerProfile>
    var ecoTransactions: seq<EcoTransaction>

    constructor ()
      ensures items == map[] && quotes == map[] && repairs == map[]
      ensures profiles == map[] && repairerProfiles == map[]
      ensures ecoTransactions == []
    {
      items := map[];
      quotes := map[];
      repairs := map[];
      profiles := map[];
      repairerProfiles := map[];
      ecoTransactions := [];
    }
  }

  /** `update(f).eq('id', id)`: the row with that id, if there is one, is
      rewritten by `f`; no row is added or removed and every other row is
      left as it was. An id that names no row changes nothing. */
  function UpdateRow<V>(rows: map<string, V>, id: string, f: V -> V): (r: map<string, V>)
    ensures r.Keys == rows.Keys
    ensures forall k :: k in rows && k != id ==> r[k] == rows[k]
    ensures id in rows ==> r[id] == f(rows[id])
    ensures id !in rows ==> r == rows
  {
    if id in rows then rows[id := f(rows[id])] else rows
  }

  /** Two updates of different rows commute. */
  lemma UpdateRowCommutes<V>(rows: map<string, V>, a: string, f: V -> V, b: string, g: V -> V)
    requires a != b
    ensures UpdateRow(UpdateRow(rows, a, f), b, g) == UpdateRow(UpdateRow(rows, b, g), a, f)
  {
  }

  /** The status write every page performs on the items table. */
  function SetItemStatus(items: map<string, Item>, id: string, s: ItemStatus): (r: map<string, Item>)
    ensures r.Keys == items.Keys
    ensures id in items ==> r[id] == items[id].(status := s)
    ensures forall k :: k in items && k != id ==> r[k] == items[k]
  {
    UpdateRow(items, id, (it: Item) => it.(status := s))
  }
}
