/**
 * The database the pipeline writes to: one table per component model and the
 * `Fingerprint` table whose rows link one component row each through the
 * one-to-one fields. `StoreState` is the value of the whole database; the
 * `Store` class holds it in fields that its methods update in place.
 */
module Datastore {
  import opened Wrappers
  import opened JsonData
  import opened Models

  /** A component table: rows by primary key, and the next key the auto-increment will hand out. */
  datatype Table = Table(rows: map<nat, Row>, nextId: nat)

  /** A `Fingerprint` row: `created_at`, and the primary key of the linked row for each set slot. */
  datatype FingerprintRow = FingerprintRow(createdAt: int, links: map<Component, nat>)

  datatype StoreState = StoreState(
    tables: map<Component, Table>,
    fingerprints: map<nat, FingerprintRow>,
    nextFingerprintId: nat)

  const EmptyTable := Table(map[], 1)
  const EmptyStore := StoreState(map[], map[], 1)

  function TableOf(s: StoreState, c: Component): Table
  {
    if c in s.tables then s.tables[c] else EmptyTable
  }

  predicate TableValid(t: Table)
  {
    t.nextId >= 1 && forall id :: id in t.rows ==> 1 <= id < t.nextId
  }

  /** Every link points at an existing row of its component. */
  predicate LinksExist(s: StoreState)
  {
    forall id, c :: id in s.fingerprints && c in s.fingerprints[id].links ==>
      s.fingerprints[id].links[c] in TableOf(s, c).rows
  }

  /** The one-to-one constraint: no component row is linked by two `Fingerprint` rows. */
  predicate OneToOne(s: StoreState)
  {
    forall a, b, c ::
      (a in s.fingerprints && b in s.fingerprints
       && c in s.fingerprints[a].links && c in s.fingerprints[b].links
       && s.fingerprints[a].links[c] == s.fingerprints[b].links[c]) ==> a == b
  }

  /** Whether some `Fingerprint` row links row `id` of component `c`. */
  predicate Linked(s: StoreState, c: Component, id: nat)
  {
    exists f :: f in s.fingerprints && c in s.fingerprints[f].links && s.fingerprints[f].links[c] == id
  }

  /** Every stored row has one value per declared field of its model. */
  predicate RowsMatchSchema(tables: map<Component, Table>)
  {
    forall c, id :: c in tables && id in tables[c].rows ==> |tables[c].rows[id]| == Width(c)
  }

  predicate ValidState(s: StoreState)
  {
    (forall c :: TableValid(TableOf(s, c)))
    && RowsMatchSchema(s.tables)
    && s.nextFingerprintId >= 1
    && (forall id :: id in s.fingerprints ==> 1 <= id < s.nextFingerprintId)
    && LinksExist(s)
    && OneToOne(s)
  }

  /** `save()` of a new component row: it takes the next primary key. */
  function InsertRow(s: StoreState, c: Component, row: Row): (StoreState, nat)
  {
    var t := TableOf(s, c);
    (s.(tables := s.tables[c := Table(t.rows[t.nextId := row], t.nextId + 1)]), t.nextId)
  }

  /** `Fingerprint.objects.create(...)`: a new parent row with `created_at` set to the time of insertion. */
  function InsertFingerprint(s: StoreState, now: int, links: map<Component, nat>): (StoreState, nat)
  {
    (s.(fingerprints := s.fingerprints[s.nextFingerprintId := FingerprintRow(now, links)],
        nextFingerprintId := s.nextFingerprintId + 1),
     s.nextFingerprintId)
  }

  /** Deleting a component row; `on_delete=CASCADE` deletes the `Fingerprint` rows linking it. */
  function DeleteRow(s: StoreState, c: Component, id: nat): StoreState
  {
    var t := TableOf(s, c);
    var kept := map f | f in s.fingerprints && !(c in s.fingerprints[f].links && s.fingerprints[f].links[c] == id)
                  :: s.fingerprints[f];
    s.(tables := s.tables[c := t.(rows := t.rows - {id})], fingerprints := kept)
  }

  /** An insert takes a key no row of that table had and changes no other table and no `Fingerprint`. */
  lemma InsertRowFrame(s: StoreState, c: Component, row: Row)
    requires TableValid(TableOf(s, c))
    ensures var (s', id) := InsertRow(s, c, row);
      id !in TableOf(s, c).rows && TableOf(s', c).rows == TableOf(s, c).rows[id := row]
      && (forall d :: d != c ==> TableOf(s', d) == TableOf(s, d))
      && s'.fingerprints == s.fingerprints
  {
  }

  /** An insert of a row of the model's width takes a key no row of that table had, changes no other table and no `Fingerprint`, and keeps the store valid. */
  lemma InsertRowPreserves(s: StoreState, c: Component, row: Row)
    requires ValidState(s) && |row| == Width(c)
    ensures var (s', id) := InsertRow(s, c, row);
      ValidState(s') && id !in TableOf(s, c).rows && TableOf(s', c).rows == TableOf(s, c).rows[id := row]
      && (forall d :: d != c ==> TableOf(s', d) == TableOf(s, d))
      && s'.fingerprints == s.fingerprints
      && !Linked(s', c, id)
  {
    var (s', id) := InsertRow(s, c, row);
    InsertRowFrame(s, c, row);
    forall d ensures TableValid(TableOf(s', d)) {
      if d != c {
        assert TableOf(s', d) == TableOf(s, d);
      }
    }
    assert TableValid(TableOf(s, c));
    forall f, d | f in s'.fingerprints && d in s'.fingerprints[f].links
      ensures s'.fingerprints[f].links[d] in TableOf(s', d).rows
    {
      assert s.fingerprints[f].links[d] in TableOf(s, d).rows;
    }
  }

  /** The new row's links are fresh, so the one-to-one constraint survives the insert. */
  lemma InsertFingerprintOneToOne(s: StoreState, now: int, links: map<Component, nat>)
    requires OneToOne(s)
    requires forall c :: c in links ==> !Linked(s, c, links[c])
    requires s.nextFingerprintId !in s.fingerprints
    ensures OneToOne(InsertFingerprint(s, now, links).0)
  {
    var (s', id) := InsertFingerprint(s, now, links);
    forall a, b, c | a in s'.fingerprints && b in s'.fingerprints
      && c in s'.fingerprints[a].links && c in s'.fingerprints[b].links
      && s'.fingerprints[a].links[c] == s'.fingerprints[b].links[c]
      ensures a == b
    {
    }
  }

  /** The new row's links point at existing rows, and the old rows' links still do. */
  lemma InsertFingerprintLinksExist(s: StoreState, now: int, links: map<Component, nat>)
    requires LinksExist(s)
    requires forall c :: c in links ==> links[c] in TableOf(s, c).rows
    ensures LinksExist(InsertFingerprint(s, now, links).0)
  {
    var (s', id) := InsertFingerprint(s, now, links);
    forall f, c | f in s'.fingerprints && c in s'.fingerprints[f].links
      ensures s'.fingerprints[f].links[c] in TableOf(s', c).rows
    {
      if f != id {
        assert s.fingerprints[f].links[c] in TableOf(s, c).rows;
      }
    }
  }

  /**
   * A new `Fingerprint` row whose links point at existing rows that no other
   * row links keeps the store valid; `created_at` is the insertion time and the
   * earlier `Fingerprint` rows are unchanged.
   */
  lemma InsertFingerprintPreserves(s: StoreState, now: int, links: map<Component, nat>)
    requires ValidState(s)
    requires forall c :: c in links ==> links[c] in TableOf(s, c).rows && !Linked(s, c, links[c])
    ensures var (s', id) := InsertFingerprint(s, now, links);
      ValidState(s') && id !in s.fingerprints && s'.fingerprints[id] == FingerprintRow(now, links)
      && s'.tables == s.tables
      && (forall f :: f in s.fingerprints ==> f in s'.fingerprints && s'.fingerprints[f] == s.fingerprints[f])
      && |s'.fingerprints| == |s.fingerprints| + 1
  {
    var (s', id) := InsertFingerprint(s, now, links);
    assert id !in s.fingerprints;
    assert s'.fingerprints.Keys == s.fingerprints.Keys + {id};
    InsertFingerprintValid(s, now, links);
  }

  /** Links a new `Fingerprint` row may take: existing rows that no `Fingerprint` links yet. */
  predicate LinksFree(s: StoreState, links: map<Component, nat>)
  {
    forall c :: c in links ==> links[c] in TableOf(s, c).rows && !Linked(s, c, links[c])
  }

  lemma InsertFingerprintValid(s: StoreState, now: int, links: map<Component, nat>)
    requires ValidState(s)
    requires forall c :: c in links ==> links[c] in TableOf(s, c).rows && !Linked(s, c, links[c])
    ensures ValidState(InsertFingerprint(s, now, links).0)
  {
    var (s', id) := InsertFingerprint(s, now, links);
    InsertFingerprintOneToOne(s, now, links);
    InsertFingerprintLinksExist(s, now, links);
    assert forall c :: TableOf(s', c) == TableOf(s, c);
  }

  /** After a cascading delete the row is gone, nothing links it, every other `Fingerprint` row survives, and the store stays valid. */
  lemma DeleteRowCascades(s: StoreState, c: Component, id: nat)
    requires ValidState(s)
    ensures var s' := DeleteRow(s, c, id);
      ValidState(s') && id !in TableOf(s', c).rows && !Linked(s', c, id)
      && (forall f :: f in s.fingerprints && !(c in s.fingerprints[f].links && s.fingerprints[f].links[c] == id)
            ==> f in s'.fingerprints && s'.fingerprints[f] == s.fingerprints[f])
      && (forall f :: f in s'.fingerprints ==> f in s.fingerprints)
  {
    DeleteRowValid(s, c, id);
  }

  /** A cascading delete keeps the store valid. */
  lemma DeleteRowValid(s: StoreState, c: Component, id: nat)
    requires ValidState(s)
    ensures ValidState(DeleteRow(s, c, id))
  {
    var s' := DeleteRow(s, c, id);
    forall d ensures TableValid(TableOf(s', d)) {
      assert TableValid(TableOf(s, d));
    }
    forall f, d | f in s'.fingerprints && d in s'.fingerprints[f].links
      ensures s'.fingerprints[f].links[d] in TableOf(s', d).rows
    {
      assert s.fingerprints[f].links[d] in TableOf(s, d).rows;
    }
  }

  /** The live database. */
  class Store {
    var tables: map<Component, Table>
    var fingerprints: map<nat, FingerprintRow>
    var nextFingerprintId: nat

    function State(): StoreState
      reads this
    {
      StoreState(tables, fingerprints, nextFingerprintId)
    }

    predicate Valid()
      reads this
    {
      ValidState(State())
    }

    constructor()
      ensures State() == EmptyStore && Valid()
    {
      tables := map[];
      fingerprints := map[];
      nextFingerprintId := 1;
    }

    /** Inserts a component row and returns its primary key. */
    method Insert(c: Component, row: Row) returns (id: nat)
      modifies this
      ensures (State(), id) == InsertRow(old(State()), c, row)
      ensures old(Valid()) && |row| == Width(c) ==> Valid()
    {
      ghost var s0 := State();
      var t := TableOf(State(), c);
      id := t.nextId;
      tables := tables[c := Table(t.rows[id := row], id + 1)];
      if ValidState(s0) && |row| == Width(c) {
        InsertRowPreserves(s0, c, row);
      }
    }

    /** Inserts a `Fingerprint` row and returns its primary key. */
    method InsertParent(now: int, links: map<Component, nat>) returns (id: nat)
      modifies this
      ensures (State(), id) == InsertFingerprint(old(State()), now, links)
      ensures old(Valid()) && LinksFree(old(State()), links) ==> Valid()
    {
      ghost var s0 := State();
      id := nextFingerprintId;
      fingerprints := fingerprints[id := FingerprintRow(now, links)];
      nextFingerprintId := id + 1;
      if ValidState(s0) && LinksFree(s0, links) {
        InsertFingerprintValid(s0, now, links);
      }
    }

    /** Deletes a component row together with the `Fingerprint` rows that link it. */
    method Delete(c: Component, id: nat)
      modifies this
      ensures State() == DeleteRow(old(State()), c, id)
      ensures old(Valid()) ==> Valid()
    {
      ghost var s0 := State();
      var t := TableOf(State(), c);
      tables := tables[c := t.(rows := t.rows - {id})];
      fingerprints := map f | f in fingerprints && !(c in fingerprints[f].links && fingerprints[f].links[c] == id)
                        :: fingerprints[f];
      if ValidState(s0) {
        DeleteRowValid(s0, c, id);
      }
    }

    /** Puts back a snapshot: the rollback of a transaction. */
    method Restore(snapshot: StoreState)
      modifies this
      ensures State() == snapshot
      ensures ValidState(snapshot) ==> Valid()
    {
      tables := snapshot.tables;
      fingerprints := snapshot.fingerprints;
      nextFingerprintId := snapshot.nextFingerprintId;
    }
  }
}
