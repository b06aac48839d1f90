/** The identity migration of findings (`migrate_lifecycle` in src/promote.rs). */
module Migration {
  import opened Common
  import opened Lifecycle
  import opened StableSort
  import StringOrder

  /** The server, tool and template whose findings are gathered under `id`; the
      annotated-success finding of the same tool stays apart. */
  datatype Key = Key(server: string, tool: Option<string>, template: Option<string>, falseSuccess: string)

  predicate Matches(key: Key, id: string, row: Row) {
    row.server == key.server && row.tool == key.tool && row.template == key.template && id != key.falseSuccess
  }

  function UpdatedAt(rows: map<string, Row>, id: string): string { if id in rows then rows[id].updatedAt else "" }

  /** Later updates first, then by identity. */
  predicate Recency(rows: map<string, Row>, a: string, b: string) {
    if UpdatedAt(rows, a) == UpdatedAt(rows, b) then StringOrder.Le(a, b)
    else StringOrder.Le(UpdatedAt(rows, b), UpdatedAt(rows, a))
  }

  /** What the query for the rows of a key answers. */
  ghost predicate Selects(ids: seq<string>, rows: map<string, Row>, key: Key) {
    && Distinct(ids)
    && (forall id :: id in ids <==> id in rows && Matches(key, id, rows[id]))
    && (forall i, j :: 0 <= i < j < |ids| ==> Recency(rows, ids[i], ids[j]))
  }

  lemma {:induction false} RecencyOrders(rows: map<string, Row>)
    ensures IsTotalPreorder((a, b) => Recency(rows, a, b))
    ensures forall a, b :: Recency(rows, a, b) && Recency(rows, b, a) ==> a == b
  {
    forall a, b ensures Recency(rows, a, b) || Recency(rows, b, a) {
      StringOrder.Total(a, b);
      StringOrder.Total(UpdatedAt(rows, a), UpdatedAt(rows, b));
    }
    forall a, b | Recency(rows, a, b) && Recency(rows, b, a) ensures a == b {
      StringOrder.Antisymmetric(a, b) by {
        NewestAgree(rows, a, b);
      }
    }
    forall a, b, c | Recency(rows, a, b) && Recency(rows, b, c) ensures Recency(rows, a, c) {
      RecencyChains(rows, a, b, c);
    }
  }

  lemma {:induction false} NewestAgree(rows: map<string, Row>, a: string, b: string)
    requires Recency(rows, a, b) && Recency(rows, b, a)
    ensures UpdatedAt(rows, a) == UpdatedAt(rows, b)
  {
    if UpdatedAt(rows, a) != UpdatedAt(rows, b) {
      StringOrder.Antisymmetric(UpdatedAt(rows, a), UpdatedAt(rows, b));
    }
  }

  lemma {:induction false} RecencyChains(rows: map<string, Row>, a: string, b: string, c: string)
    requires Recency(rows, a, b) && Recency(rows, b, c)
    ensures Recency(rows, a, c)
  {
    var ta, tb, tc := UpdatedAt(rows, a), UpdatedAt(rows, b), UpdatedAt(rows, c);
    if ta == tb && tb == tc {
      StringOrder.Transitive(a, b, c);
    } else if ta != tb && tb != tc {
      StringOrder.Transitive(tc, tb, ta);
      if ta == tc {
        StringOrder.Antisymmetric(ta, tb);
      }
    }
  }

  lemma {:induction false} Listed(ids: set<string>) returns (list: seq<string>)
    ensures Distinct(list) && forall id :: id in list <==> id in ids
  {
    list := [];
    if ids != {} {
      var id :| id in ids;
      var rest := Listed(ids - {id});
      list := [id] + rest;
      assert id !in rest;
    }
  }

  /** The query has exactly one answer. */
  lemma {:induction false} OneAnswer(rows: map<string, Row>, key: Key)
    ensures exists ids :: Selects(ids, rows, key) && forall other :: Selects(other, rows, key) ==> other == ids
  {
    RecencyOrders(rows);
    var le := (a: string, b: string) => Recency(rows, a, b);
    var list := Listed(set id | id in rows && Matches(key, id, rows[id]));
    var ids := Sort(list, le);
    SortSorted(list, le);
    forall id ensures id in ids <==> id in list {
      SortMember(list, le, id);
    }
    SortDistinct(list, le);
    assert Selects(ids, rows, key);
    forall other | Selects(other, rows, key) ensures other == ids {
      SortedDetermined(other, ids, le);
    }
  }

  function Moved(r: Run, from: seq<string>, to: string): Run {
    if r.finding in from then r.(finding := to) else r
  }

  function MovedAll(history: seq<Run>, from: seq<string>, to: string): seq<Run> {
    seq(|history|, i requires 0 <= i < |history| => Moved(history[i], from, to))
  }

  /** The identity is held by a row the query did not answer. */
  predicate Taken(rows: map<string, Row>, ids: seq<string>, id: string) {
    ids != [] && id in rows && id !in ids
  }

  /** The evidence once the rows `ids` are gathered under `id`: the first one's
      row, and the verifications of all of them. */
  function Migrated(e: Evidence, ids: seq<string>, id: string): Evidence {
    if ids == [] || ids[0] !in e.rows then e
    else Evidence((e.rows - set x | x in ids)[id := e.rows[ids[0]]], MovedAll(e.history, ids, id))
  }

  /** Rows already under one identity stay as they are. */
  lemma {:induction false} AlreadyGathered(e: Evidence, ids: seq<string>, id: string)
    requires forall x :: x in ids ==> x == id
    ensures ids != [] ==> id in ids
    ensures Migrated(e, ids, id) == e
  {
    assert ids != [] ==> ids[0] in ids;
    assert MovedAll(e.history, ids, id) == e.history;
    assert ids != [] && id in e.rows ==> e.rows == (e.rows - set x | x in ids)[id := e.rows[id]];
  }

  /** Retiring all rows but the first, and renaming that one, gathers them. */
  lemma {:induction false} Gathered(e: Evidence, ids: seq<string>, id: string)
    requires ids != [] && Distinct(ids) && ids[0] in e.rows
    ensures
      var kept, first := e.rows - (set x | x in ids[1..]), ids[0];
      && first in kept
      && (if id == first then Migrated(e, ids, id) == Evidence(kept, MovedAll(e.history, ids[1..], id))
          else
            && Migrated(e, ids, id) == Evidence((kept - {first})[id := kept[first]], MovedAll(e.history, ids, id))
            && (id in kept <==> Taken(e.rows, ids, id)))
  {
    var rest := ids[1..];
    var kept, first := e.rows - (set x | x in rest), ids[0];
    assert ids == [first] + rest;
    assert first !in rest;
    if id == first {
      assert kept == (e.rows - set x | x in ids)[id := e.rows[first]];
      assert MovedAll(e.history, rest, id) == MovedAll(e.history, ids, id);
    } else {
      assert kept - {first} == e.rows - set x | x in ids;
    }
  }

  lemma {:induction false} MoveOne(history: seq<Run>, from: seq<string>, x: string, to: string)
    requires x != to || to !in from
    ensures MovedAll(MovedAll(history, from, to), [x], to) == MovedAll(history, from + [x], to)
    ensures MovedAll(MovedAll(history, from, to), [x], to) == MovedAll(history, [x] + from, to)
  {
  }

  /** Every verification survives: the same runs in the same order, only the
      gathered ones under the new identity. */
  lemma {:induction false} MigrationConserves(e: Evidence, key: Key, ids: seq<string>, id: string)
    requires Selects(ids, e.rows, key) && !Taken(e.rows, ids, id)
    ensures
      var after := Migrated(e, ids, id);
      && |after.history| == |e.history|
      && (forall i :: 0 <= i < |e.history| ==>
            && after.history[i].(finding := e.history[i].finding) == e.history[i]
            && (e.history[i].finding !in ids ==> after.history[i] == e.history[i])
            && (e.history[i].finding in ids ==> after.history[i].finding == id))
  {
  }

  /** A row of the key's server, tool and template. */
  predicate Shares(row: Row, key: Key) {
    (row.server, row.tool, row.template) == (key.server, key.tool, key.template)
  }

  lemma {:induction false} FirstIsNewest(ids: seq<string>, rows: map<string, Row>, key: Key, f: string)
    requires Selects(ids, rows, key) && f in ids
    ensures ids[0] in rows && f in rows
    ensures StringOrder.ComesFirst(rows[f].updatedAt, rows[ids[0]].updatedAt)
    ensures rows[f].updatedAt == rows[ids[0]].updatedAt ==> StringOrder.ComesFirst(ids[0], f)
  {
    assert ids[0] in ids;
    var j :| 0 <= j < |ids| && ids[j] == f;
    StringOrder.Reflexive(rows[f].updatedAt);
    StringOrder.Reflexive(f);
    assert j > 0 ==> Recency(rows, ids[0], ids[j]);
    StringOrder.LeMeans(rows[f].updatedAt, rows[ids[0]].updatedAt);
    StringOrder.LeMeans(ids[0], f);
  }

  /** One row is left for the key, the most recently updated one, and every
      other finding keeps its row. */
  lemma {:induction false} MigrationKeepsNewest(e: Evidence, key: Key, ids: seq<string>, id: string)
    requires Selects(ids, e.rows, key) && !Taken(e.rows, ids, id) && id != key.falseSuccess
    ensures
      var after := Migrated(e, ids, id).rows;
      && (forall f :: f in after && f != key.falseSuccess && Shares(after[f], key) ==> f == id)
      && (ids != [] ==> id in after && Matches(key, id, after[id]))
      && (forall f :: f in e.rows && Matches(key, f, e.rows[f]) ==>
            id in after && StringOrder.ComesFirst(e.rows[f].updatedAt, after[id].updatedAt))
      && (ids != [] ==>
            && ids[0] in e.rows && Matches(key, ids[0], e.rows[ids[0]]) && e.rows[ids[0]] == after[id]
            && forall f :: f in ids && e.rows[f].updatedAt == after[id].updatedAt ==> StringOrder.ComesFirst(ids[0], f))
      && (forall f :: f in e.rows && f != id && !(f != key.falseSuccess && Shares(e.rows[f], key)) ==>
            f in after && after[f] == e.rows[f])
      && (forall f :: f in after && f != id ==> f in e.rows && after[f] == e.rows[f])
  {
    if ids != [] {
      assert ids[0] in ids;
      forall f | f in e.rows && Matches(key, f, e.rows[f])
        ensures StringOrder.ComesFirst(e.rows[f].updatedAt, e.rows[ids[0]].updatedAt)
        ensures e.rows[f].updatedAt == e.rows[ids[0]].updatedAt ==> StringOrder.ComesFirst(ids[0], f)
      {
        FirstIsNewest(ids, e.rows, key, f);
      }
    }
  }

  /** Migrating what was migrated changes nothing. */
  lemma {:induction false} MigrationIsIdempotent(e: Evidence, key: Key, ids: seq<string>, id: string,
                                                 again: seq<string>)
    requires Selects(ids, e.rows, key) && !Taken(e.rows, ids, id) && id != key.falseSuccess
    requires Selects(again, Migrated(e, ids, id).rows, key)
    ensures !Taken(Migrated(e, ids, id).rows, again, id)
    ensures Migrated(Migrated(e, ids, id), again, id) == Migrated(e, ids, id)
  {
    MigrationKeepsNewest(e, key, ids, id);
    var after := Migrated(e, ids, id);
    assert forall x :: x in again ==> x in after.rows && Matches(key, x, after.rows[x]);
    AlreadyGathered(after, again, id);
  }
}
