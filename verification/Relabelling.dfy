/** Copying the rows of a table under new ids. */
module Relabelling {
  import opened Tables

  ghost predicate Injective(ids: map<Id, Id>) {
    forall a, b {:trigger ids[a], ids[b]} | a in ids && b in ids :: ids[a] == ids[b] ==> a == b
  }

  /** `ids` gives each source its own id, not among those taken. */
  ghost predicate Mints(ids: map<Id, Id>, sources: set<Id>, taken: set<Id>) {
    ids.Keys == sources && Injective(ids) && ids.Values !! taken
  }

  /** What the new id `x` was minted for. */
  ghost function Origin(ids: map<Id, Id>, x: Id): (a: Id)
    requires x in ids.Values
    ensures a in ids && ids[a] == x
  {
    var a :| a in ids && ids[a] == x;
    a
  }

  /** The rows, each under its new id. */
  ghost function Copies<R>(ids: map<Id, Id>, rows: map<Id, R>): (r: map<Id, R>)
    requires ids.Keys <= rows.Keys
    ensures r.Keys == ids.Values
  {
    map x | x in ids.Values :: rows[Origin(ids, x)]
  }

  /** `base` with the copies added. */
  ghost function Grow<R>(base: map<Id, R>, ids: map<Id, Id>, rows: map<Id, R>): (r: map<Id, R>)
    requires ids.Keys <= rows.Keys
  {
    base + Copies(ids, rows)
  }

  /** What a grown table holds, and nothing else. */
  lemma GrowContents<R(!new)>(base: map<Id, R>, ids: map<Id, Id>, rows: map<Id, R>)
    requires Injective(ids) && ids.Keys <= rows.Keys && ids.Values !! base.Keys
    ensures Within(base, Grow(base, ids, rows))
    ensures forall a :: a in ids ==> ids[a] in Grow(base, ids, rows) && Grow(base, ids, rows)[ids[a]] == rows[a]
    ensures Grow(base, ids, rows).Keys == base.Keys + ids.Values
  {
    forall a | a in ids ensures ids[a] in Grow(base, ids, rows) && Grow(base, ids, rows)[ids[a]] == rows[a] {
      assert ids[a] in ids.Values && Origin(ids, ids[a]) == a;
    }
  }

  /** Rewriting the copy of `a` is one map update. */
  lemma GrowUpdate<R>(base: map<Id, R>, ids: map<Id, Id>, rows: map<Id, R>, a: Id, row: R)
    requires Injective(ids) && ids.Keys <= rows.Keys && a in ids
    ensures Grow(base, ids, rows[a := row]) == Grow(base, ids, rows)[ids[a] := row]
  {
    assert ids[a] in ids.Values;
    var before, after := Copies(ids, rows), Copies(ids, rows[a := row]);
    forall x | x in after ensures after[x] == before[ids[a] := row][x] {
      assert Origin(ids, x) == a <==> x == ids[a];
    }
    assert after == before[ids[a] := row];
  }

  lemma OneMoreId(ids: map<Id, Id>, a: Id, id: Id)
    requires Injective(ids) && a !in ids && id !in ids.Values
    ensures Injective(ids[a := id]) && ids[a := id].Values == ids.Values + {id}
    ensures Origin(ids[a := id], id) == a
    ensures forall x :: x in ids.Values ==> Origin(ids[a := id], x) == Origin(ids, x)
  {
    var more := ids[a := id];
    forall b | b in ids ensures ids[b] != id { assert ids[b] in ids.Values; }
    assert more[a] == id;
    forall x | x in ids.Values ensures x in more.Values && Origin(more, x) == Origin(ids, x) {
      assert more[Origin(ids, x)] == x;
    }
  }

  lemma CopiesNew<R>(ids: map<Id, Id>, rows: map<Id, R>, a: Id, id: Id)
    requires ids.Keys <= rows.Keys && a in rows && id !in ids.Values
    requires ids[a := id].Values == ids.Values + {id} && Origin(ids[a := id], id) == a
    requires forall x :: x in ids.Values ==> Origin(ids[a := id], x) == Origin(ids, x)
    ensures Copies(ids[a := id], rows) == Copies(ids, rows)[id := rows[a]]
  {
    var before, after := Copies(ids, rows), Copies(ids[a := id], rows);
    forall x | x in after ensures after[x] == before[id := rows[a]][x] {
      assert x == id || x in ids.Values;
    }
  }

  /** Copying one more row, under the new id `id`, is one map update. */
  lemma GrowNew<R>(base: map<Id, R>, ids: map<Id, Id>, rows: map<Id, R>, a: Id, id: Id)
    requires Injective(ids) && ids.Keys <= rows.Keys
    requires a in rows && a !in ids && id !in ids.Values
    ensures Grow(base, ids[a := id], rows) == Grow(base, ids, rows)[id := rows[a]]
  {
    OneMoreId(ids, a, id);
    CopiesNew(ids, rows, a, id);
    assert base + Copies(ids, rows)[id := rows[a]] == (base + Copies(ids, rows))[id := rows[a]];
  }

  /** Minting one id that is free in the grown table. */
  lemma MintOne<R>(base: map<Id, R>, ids: map<Id, Id>, rows: map<Id, R>, done: set<Id>, a: Id, id: Id)
    requires Mints(ids, done, base.Keys) && done <= rows.Keys
    requires a in rows && a !in done && id !in Grow(base, ids, rows)
    ensures Mints(ids[a := id], done + {a}, base.Keys)
    ensures Grow(base, ids[a := id], rows) == Grow(base, ids, rows)[id := rows[a]]
  {
    OneMoreId(ids, a, id);
    GrowNew(base, ids, rows, a, id);
  }

  function Only(ids: map<Id, Id>, done: set<Id>): map<Id, Id> {
    map a | a in ids && a in done :: ids[a]
  }

  /** The table midway through a pass that copies the rows one by one: those in `todo` are missing. */
  ghost function Midway<R>(base: map<Id, R>, ids: map<Id, Id>, rows: map<Id, R>, todo: set<Id>): (r: map<Id, R>)
    requires ids.Keys <= rows.Keys
  {
    Grow(base, Only(ids, ids.Keys - todo), rows)
  }

  lemma PassStarts<R>(base: map<Id, R>, ids: map<Id, Id>, rows: map<Id, R>)
    requires ids.Keys <= rows.Keys
    ensures Midway(base, ids, rows, ids.Keys) == base
  {
    assert Only(ids, ids.Keys - ids.Keys) == map[];
    assert Copies(map[], rows) == map[];
  }

  lemma PassStep<R>(base: map<Id, R>, ids: map<Id, Id>, rows: map<Id, R>, todo: set<Id>, a: Id)
    requires Injective(ids) && ids.Keys <= rows.Keys && a in todo && todo <= ids.Keys
    ensures Midway(base, ids, rows, todo - {a}) == Midway(base, ids, rows, todo)[ids[a] := rows[a]]
  {
    var done := Only(ids, ids.Keys - todo);
    assert Only(ids, ids.Keys - (todo - {a})) == done[a := ids[a]];
    assert ids[a] !in done.Values by {
      forall b | b in done ensures done[b] != ids[a] { assert ids[b] == done[b]; }
    }
    GrowNew(base, done, rows, a, ids[a]);
  }

  lemma PassEnds<R>(base: map<Id, R>, ids: map<Id, Id>, rows: map<Id, R>)
    requires ids.Keys <= rows.Keys
    ensures Midway(base, ids, rows, {}) == Grow(base, ids, rows)
  {
    assert Only(ids, ids.Keys - {}) == ids;
  }

  lemma GrowWithin<R(!new)>(base: map<Id, R>, ids: map<Id, Id>, rows: map<Id, R>)
    requires ids.Keys <= rows.Keys && ids.Values !! base.Keys
    ensures Within(base, Grow(base, ids, rows))
  {
  }

  lemma MidwayWithin<R(!new)>(base: map<Id, R>, ids: map<Id, Id>, rows: map<Id, R>, todo: set<Id>)
    requires ids.Keys <= rows.Keys && ids.Values !! base.Keys
    ensures Within(base, Midway(base, ids, rows, todo))
  {
    var done := Only(ids, ids.Keys - todo);
    forall x | x in done.Values ensures x in ids.Values { assert ids[Origin(done, x)] == x; }
  }

  lemma CopyOf<R>(base: map<Id, R>, ids: map<Id, Id>, rows: map<Id, R>, a: Id)
    requires Injective(ids) && ids.Keys <= rows.Keys && a in ids
    ensures ids[a] in Grow(base, ids, rows) && Grow(base, ids, rows)[ids[a]] == rows[a]
  {
    assert ids[a] in ids.Values;
    assert Origin(ids, ids[a]) == a;
  }

  /** The rows midway through a pass that rewrites them one by one: those in `todo` are as before. */
  function Rewriting<R>(before: map<Id, R>, after: map<Id, R>, todo: set<Id>): map<Id, R>
    requires before.Keys == after.Keys
  {
    map a | a in after :: if a in todo then before[a] else after[a]
  }

  lemma RewriteStep<R>(base: map<Id, R>, ids: map<Id, Id>, before: map<Id, R>, after: map<Id, R>, todo: set<Id>, a: Id)
    requires Injective(ids) && ids.Keys == before.Keys == after.Keys && a in todo && todo <= ids.Keys
    ensures Grow(base, ids, Rewriting(before, after, todo - {a})) ==
            Grow(base, ids, Rewriting(before, after, todo))[ids[a] := after[a]]
    ensures ids[a] in Grow(base, ids, Rewriting(before, after, todo))
    ensures Grow(base, ids, Rewriting(before, after, todo))[ids[a]] == before[a]
  {
    var rows := Rewriting(before, after, todo);
    CopyOf(base, ids, rows, a);
    GrowUpdate(base, ids, rows, a, after[a]);
    assert Rewriting(before, after, todo - {a}) == rows[a := after[a]];
  }

  lemma RewriteEnds<R>(before: map<Id, R>, after: map<Id, R>)
    requires before.Keys == after.Keys
    ensures Rewriting(before, after, before.Keys) == before
    ensures Rewriting(before, after, {}) == after
  {
  }
}
