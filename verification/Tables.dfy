/** A table with a serial primary key: its rows by id, and the next id of its sequence. */
module Tables {
  import opened Results

  datatype Table<V> = Table(rows: map<nat, V>, next: nat)

  /** The sequence is ahead of every id in use. */
  predicate Serial<V>(t: Table<V>) {
    forall id :: id in t.rows ==> id < t.next
  }

  /** No two rows carry the same value: a UNIQUE constraint on all columns but the id. */
  predicate Distinct<V(==)>(rows: map<nat, V>) {
    forall i, j :: i in rows && j in rows && rows[i] == rows[j] ==> i == j
  }

  function Insert<V>(t: Table<V>, v: V): Table<V> {
    Table(t.rows[t.next := v], t.next + 1)
  }

  function InsertAbsent<V(==)>(t: Table<V>, v: V): Table<V> {
    if v in t.rows.Values then t else Insert(t, v)
  }

  function Delete<V>(t: Table<V>, ids: set<nat>): Table<V> {
    Table(t.rows - ids, t.next)
  }

  /** The scalar subquery SELECT id WHERE value = v: NULL when there is no such row. */
  function Find<V(==)>(rows: map<nat, V>, v: V): (r: Option<nat>)
    requires Distinct(rows)
    ensures forall id :: r == Some(id) <==> id in rows && rows[id] == v
  {
    if exists id :: id in rows && rows[id] == v then
      var id :| id in rows && rows[id] == v;
      Some(id)
    else None
  }

  /** Insert-if-absent of each value in turn. */
  function AddMissing<V(==)>(t: Table<V>, vals: seq<V>): Table<V> {
    if vals == [] then t
    else InsertAbsent(AddMissing(t, vals[..|vals| - 1]), vals[|vals| - 1])
  }

  /** The ids of the rows whose value is not among those given. */
  function Undeclared<V(==)>(rows: map<nat, V>, vals: seq<V>): set<nat> {
    set id | id in rows && rows[id] !in vals
  }

  /** The table after adding the missing values and deleting the undeclared rows. */
  function Reconcile<V(==)>(t: Table<V>, vals: seq<V>): Table<V> {
    var added := AddMissing(t, vals);
    Delete(added, Undeclared(added.rows, vals))
  }

  lemma {:induction false} AddMissingFacts<V>(t: Table<V>, vals: seq<V>)
    requires Serial(t) && Distinct(t.rows)
    ensures var a := AddMissing(t, vals);
      && Serial(a) && Distinct(a.rows) && t.next <= a.next
      && (forall id :: id in t.rows ==> id in a.rows && a.rows[id] == t.rows[id])
      && (forall id :: id in a.rows && id !in t.rows ==> id >= t.next && a.rows[id] in vals)
      && (forall v :: v in vals ==> exists id :: id in a.rows && a.rows[id] == v)
      && (forall id :: id in a.rows && id !in t.rows ==> forall j :: j in t.rows ==> t.rows[j] != a.rows[id])
  {
    if vals != [] {
      var front, last := vals[..|vals| - 1], vals[|vals| - 1];
      AddMissingFacts(t, front);
      var b, a := AddMissing(t, front), AddMissing(t, vals);
      if last in b.rows.Values {
        assert a == b;
      } else {
        assert a.rows[b.next] == last;
      }
      forall v | v in vals ensures exists id :: id in a.rows && a.rows[id] == v {
        if v in front {
          var id :| id in b.rows && b.rows[id] == v;
          assert id in a.rows && a.rows[id] == v;
        } else {
          assert v == last;
        }
      }
    }
  }

  /** What reconciliation promises: the values are exactly those declared, surviving rows
      keep their ids, and a new row has an id the sequence had not handed out. */
  lemma ReconcileFacts<V>(t: Table<V>, vals: seq<V>)
    requires Serial(t) && Distinct(t.rows)
    ensures var a := Reconcile(t, vals);
      && Serial(a) && Distinct(a.rows) && t.next <= a.next
      && (forall v :: v in vals <==> exists id :: id in a.rows && a.rows[id] == v)
      && (forall id :: id in t.rows ==> (id in a.rows <==> t.rows[id] in vals))
      && (forall id :: id in t.rows && id in a.rows ==> a.rows[id] == t.rows[id])
      && (forall id :: id in a.rows && id !in t.rows ==>
           id >= t.next && forall j :: j in t.rows ==> t.rows[j] != a.rows[id])
  {
    AddMissingFacts(t, vals);
    var b, a := AddMissing(t, vals), Reconcile(t, vals);
    forall v | v in vals ensures exists id :: id in a.rows && a.rows[id] == v {
      var id :| id in b.rows && b.rows[id] == v;
      assert id in a.rows && a.rows[id] == v;
    }
  }

  /** Inserting values that are all present changes nothing. */
  lemma {:induction false} AddNothing<V>(t: Table<V>, vals: seq<V>)
    requires forall v :: v in vals ==> v in t.rows.Values
    ensures AddMissing(t, vals) == t
  {
    if vals != [] {
      AddNothing(t, vals[..|vals| - 1]);
    }
  }

  /** Adding the missing values and deleting some of the undeclared rows leaves the rows as
      they were exactly when no value was missing and nothing is deleted. */
  lemma NothingReconciled<V>(t: Table<V>, vals: seq<V>, gone: set<nat>)
    requires Serial(t) && Distinct(t.rows)
    requires gone <= Undeclared(AddMissing(t, vals).rows, vals)
    ensures Delete(AddMissing(t, vals), gone).rows == t.rows <==>
      gone == {} && forall v :: v in vals ==> v in t.rows.Values
    ensures (forall v :: v in vals ==> v in t.rows.Values) ==> AddMissing(t, vals) == t
  {
    AddMissingFacts(t, vals);
    var a := AddMissing(t, vals);
    if forall v :: v in vals ==> v in t.rows.Values {
      AddNothing(t, vals);
      if id :| id in gone {
        assert id in t.rows && id !in Delete(a, gone).rows;
      } else {
        assert a.rows - gone == a.rows;
      }
    } else {
      var v :| v in vals && v !in t.rows.Values;
      var id :| id in a.rows && a.rows[id] == v;
      assert id in Delete(a, gone).rows && Delete(a, gone).rows[id] == v;
    }
  }

  lemma ReconcileTwice<V>(t: Table<V>, vals: seq<V>)
    requires Serial(t) && Distinct(t.rows)
    ensures Reconcile(Reconcile(t, vals), vals) == Reconcile(t, vals)
  {
    var a := Reconcile(t, vals);
    ReconcileFacts(t, vals);
    AddNothing(a, vals);
    assert Undeclared(a.rows, vals) == {};
    assert a.rows - {} == a.rows;
  }

  /** The declared values that have no row yet. */
  function Fresh<V(==)>(t: Table<V>, vals: seq<V>): set<V> {
    set v | v in vals && v !in t.rows.Values
  }

  lemma {:induction false} AddMissingValues<V>(t: Table<V>, vals: seq<V>)
    requires Serial(t)
    ensures Serial(AddMissing(t, vals))
    ensures forall v :: v in AddMissing(t, vals).rows.Values <==> v in t.rows.Values || v in vals
  {
    if vals != [] {
      var front, last := vals[..|vals| - 1], vals[|vals| - 1];
      AddMissingValues(t, front);
      InsertValues(AddMissing(t, front), last);
      assert forall v :: v in vals <==> v in front || v == last;
    }
  }

  /** New rows take the next ids of the sequence, one for each value that has no row yet. */
  lemma {:induction false} AddMissingIds<V>(t: Table<V>, vals: seq<V>)
    requires Serial(t)
    ensures var a := AddMissing(t, vals);
      && a.next == t.next + |Fresh(t, vals)|
      && forall id :: id in a.rows <==> id in t.rows || t.next <= id < a.next
  {
    if vals == [] {
      assert Fresh(t, vals) == {};
    } else {
      var front, last := vals[..|vals| - 1], vals[|vals| - 1];
      AddMissingIds(t, front);
      AddMissingValues(t, front);
      FreshStep(t, front, last);
      InsertAbsentIds(AddMissing(t, front), last);
      assert vals == front + [last];
    }
  }

  lemma InsertAbsentIds<V>(t: Table<V>, v: V)
    requires Serial(t)
    ensures var a := InsertAbsent(t, v);
      && a.next == t.next + (if v in t.rows.Values then 0 else 1)
      && forall id :: id in a.rows <==> id in t.rows || t.next <= id < a.next
  {
  }

  lemma FreshStep<V>(t: Table<V>, front: seq<V>, last: V)
    ensures Fresh(t, front + [last]) ==
      if last in t.rows.Values || last in front then Fresh(t, front) else Fresh(t, front) + {last}
    ensures last !in front ==> last !in Fresh(t, front)
  {
  }

  /** After reconciling, the ids are those of the surviving rows and a block of new ones. */
  lemma ReconcileIds<V>(t: Table<V>, vals: seq<V>)
    requires Serial(t) && Distinct(t.rows)
    ensures var a := Reconcile(t, vals);
      && a.next == t.next + |Fresh(t, vals)|
      && forall id :: id in a.rows <==> (id in t.rows && t.rows[id] in vals) || t.next <= id < a.next
  {
    AddMissingFacts(t, vals);
    AddMissingIds(t, vals);
  }

  /** And the ids are the same, so the new rows share one block of them. */
  lemma ReconcileSameIds<V>(t: Table<V>, vals: seq<V>, vals': seq<V>)
    requires Serial(t) && Distinct(t.rows)
    requires forall v :: v in vals <==> v in vals'
    ensures Reconcile(t, vals).next == Reconcile(t, vals').next
    ensures Reconcile(t, vals).rows.Keys == Reconcile(t, vals').rows.Keys
  {
    ReconcileIds(t, vals);
    ReconcileIds(t, vals');
    assert Fresh(t, vals) == Fresh(t, vals');
  }

  lemma InsertValues<V>(t: Table<V>, v: V)
    requires Serial(t)
    ensures forall w :: w in Insert(t, v).rows.Values <==> w == v || w in t.rows.Values
  {
    var a := Insert(t, v);
    assert a.rows[t.next] == v;
    forall w | w in t.rows.Values ensures w in a.rows.Values {
      var id :| id in t.rows && t.rows[id] == w;
      assert a.rows[id] == w;
    }
  }

  /** Declaring the same values in another order gives the same table up to the ids of
      the new rows. */
  lemma ReconcileOrder<V>(t: Table<V>, vals: seq<V>, vals': seq<V>)
    requires Serial(t) && Distinct(t.rows)
    requires forall v :: v in vals <==> v in vals'
    ensures var a, b := Reconcile(t, vals), Reconcile(t, vals');
      && a.rows.Values == b.rows.Values
      && (forall id :: id in t.rows ==> (id in a.rows <==> id in b.rows))
      && (forall id :: id in t.rows && id in a.rows && id in b.rows ==> a.rows[id] == b.rows[id])
  {
    ReconcileFacts(t, vals);
    ReconcileFacts(t, vals');
    var a, b := Reconcile(t, vals), Reconcile(t, vals');
    forall v ensures v in a.rows.Values <==> v in b.rows.Values {
      assert v in a.rows.Values <==> exists id :: id in a.rows && a.rows[id] == v;
      assert v in b.rows.Values <==> exists id :: id in b.rows && b.rows[id] == v;
    }
  }
}
