/**
 * The table of weekly report records (`UtilizationReportModel`) as the overrides and the
 * importers use it: records under their database ids, at most one per (email, date), with
 * the ids handed out in increasing order, and the audit trail (`UtilizationHistoryModel`)
 * in creation order.
 */
module Store {
  import opened Wrappers
  import opened Calendar
  import opened ReportModel

  /** Every stored record has its own (email, date) key and a real calendar date. */
  predicate Consistent(records: map<nat, Record>) {
    KeysUnique(records) && forall k :: k in records ==> ValidDate(records[k].date)
  }

  /** `filter(date=d)`: the ids of the records of one report date. */
  function DateIds(records: map<nat, Record>, d: Date): (ids: set<nat>)
    ensures ids <= records.Keys
    ensures forall k :: k in records && records[k].date == d ==> k in ids
  {
    set k | k in records && records[k].date == d
  }

  /** The table once every record of one report date is gone. */
  function WithoutDate(records: map<nat, Record>, d: Date): (m: map<nat, Record>)
    ensures m.Keys == records.Keys - DateIds(records, d)
    ensures forall k :: k in m ==> m[k] == records[k] && m[k].date != d
  {
    map k | k in records && records[k].date != d :: records[k]
  }

  /** The id of the record stored under a key, if there is one. */
  ghost function IdOf(records: map<nat, Record>, key: (string, Date)): (r: Option<nat>)
    ensures r.Some? ==> r.value in records && Key(records[r.value]) == key
    ensures r.None? <==> forall k :: k in records ==> Key(records[k]) != key
  {
    if exists k :: k in records && Key(records[k]) == key then
      var k :| k in records && Key(records[k]) == key; Some(k)
    else None
  }

  /** Under unique keys, the record found for a key is the only one with it. */
  lemma IdOfUnique(records: map<nat, Record>, key: (string, Date), k: nat)
    requires KeysUnique(records) && k in records && Key(records[k]) == key
    ensures IdOf(records, key) == Some(k)
  {
  }

  /** Replacing a record by one with the same key and date keeps the table consistent. */
  lemma ReplaceKeepsConsistent(records: map<nat, Record>, id: nat, u: Record)
    requires Consistent(records) && id in records
    requires Key(u) == Key(records[id])
    ensures Consistent(records[id := u])
  {
    var m := records[id := u];
    forall a, b | a in m && b in m && a != b ensures Key(m[a]) != Key(m[b]) {
      assert Key(m[a]) == Key(records[a]) && Key(m[b]) == Key(records[b]);
    }
  }

  // ---------------------------------------------------------------- sums over a date

  /** The additional days of the records with these ids, summed. */
  ghost function SumDays(records: map<nat, Record>, ids: set<nat>): real
    requires ids <= records.Keys
    decreases ids
  {
    if ids == {} then 0.0
    else
      var k :| k in ids;
      records[k].addtnlDays + SumDays(records, ids - {k})
  }

  /** The sum does not depend on the order the records are visited in. */
  lemma {:induction false} SumDaysRemove(records: map<nat, Record>, ids: set<nat>, j: nat)
    requires ids <= records.Keys && j in ids
    ensures SumDays(records, ids) == records[j].addtnlDays + SumDays(records, ids - {j})
    decreases ids
  {
    var k :| k in ids && SumDays(records, ids) == records[k].addtnlDays + SumDays(records, ids - {k});
    if k != j {
      SumDaysRemove(records, ids - {k}, j);
      SumDaysRemove(records, ids - {j}, k);
      assert ids - {k} - {j} == ids - {j} - {k};
    }
  }

  /** The smallest id of a non-empty set: what `.first()` returns on an unordered query. */
  ghost function FirstId(ids: set<nat>): (k: nat)
    requires ids != {}
    ensures k in ids && forall j :: j in ids ==> k <= j
    decreases ids
  {
    var x :| x in ids;
    if ids == {x} then x
    else
      var rest := ids - {x};
      var m := FirstId(rest);
      assert forall j :: j in ids ==> j == x || j in rest;
      if x < m then x else m
  }

  // ---------------------------------------------------------------- the table

  /** The records of `rs`, stored under the consecutive ids from `start` on. */
  function NewEntries(rs: seq<Record>, start: nat): map<nat, Record> {
    if rs == [] then map[]
    else NewEntries(rs[..|rs| - 1], start)[start + |rs| - 1 := rs[|rs| - 1]]
  }

  /** Record `i` of `rs` is stored under `start + i`. */
  lemma {:induction false} NewEntriesAt(rs: seq<Record>, start: nat, i: nat)
    requires i < |rs|
    ensures start + i in NewEntries(rs, start) && NewEntries(rs, start)[start + i] == rs[i]
  {
    if i < |rs| - 1 {
      NewEntriesAt(rs[..|rs| - 1], start, i);
    }
  }

  /** Nothing but the ids from `start` to `start + |rs| - 1` is used. */
  lemma {:induction false} NewEntriesKeys(rs: seq<Record>, start: nat, k: nat)
    requires k in NewEntries(rs, start)
    ensures start <= k < start + |rs|
  {
    if k != start + |rs| - 1 {
      NewEntriesKeys(rs[..|rs| - 1], start, k);
    }
  }

  /** Storing insertable records under ids above every stored one keeps the table consistent. */
  lemma UnionConsistent(records: map<nat, Record>, rs: seq<Record>, start: nat)
    requires Consistent(records) && Insertable(records, rs)
    requires forall k :: k in records ==> k < start
    requires forall i :: 0 <= i < |rs| ==> ValidDate(rs[i].date)
    ensures Consistent(records + NewEntries(rs, start))
    ensures forall k :: k in records + NewEntries(rs, start) ==> k < start + |rs|
  {
    var added := NewEntries(rs, start);
    var m := records + added;
    forall k | k in m ensures ValidDate(m[k].date) && k < start + |rs| {
      if k in added {
        NewEntriesKeys(rs, start, k);
        NewEntriesAt(rs, start, k - start);
      }
    }
    forall a, b | a in m && b in m && a != b ensures Key(m[a]) != Key(m[b]) {
      UnionPairDistinct(records, rs, start, a, b);
    }
  }

  lemma UnionPairDistinct(records: map<nat, Record>, rs: seq<Record>, start: nat, a: nat, b: nat)
    requires KeysUnique(records) && Insertable(records, rs)
    requires forall k :: k in records ==> k < start
    requires a in records + NewEntries(rs, start) && b in records + NewEntries(rs, start) && a != b
    ensures Key((records + NewEntries(rs, start))[a]) != Key((records + NewEntries(rs, start))[b])
  {
    var added := NewEntries(rs, start);
    if a in added {
      NewEntriesKeys(rs, start, a);
      NewEntriesAt(rs, start, a - start);
    }
    if b in added {
      NewEntriesKeys(rs, start, b);
      NewEntriesAt(rs, start, b - start);
    }
    if a in added && b in added {
      var i, j := a - start, b - start;
      if i < j { assert Key(rs[i]) != Key(rs[j]); }
      else { assert Key(rs[j]) != Key(rs[i]); }
    }
  }

  /** Whether `bulk_create` can store `rs`: no two of them, and none of them and a stored record, share a key. */
  predicate Insertable(records: map<nat, Record>, rs: seq<Record>) {
    (forall i, k :: 0 <= i < |rs| && k in records ==> Key(rs[i]) != Key(records[k])) &&
    (forall i, j :: 0 <= i < j < |rs| ==> Key(rs[i]) != Key(rs[j]))
  }

  class ReportStore {
    var records: map<nat, Record>
    var history: seq<HistoryEntry>
    var nextId: nat

    /** The table invariant: unique keys, real dates, and every id below the next one handed out. */
    predicate Valid()
      reads this
    {
      Consistent(records) && forall k :: k in records ==> k < nextId
    }

    constructor()
      ensures Valid() && records == map[] && history == [] && nextId == 0
    {
      records := map[];
      history := [];
      nextId := 0;
    }

    /** `filter(resource_email_address=…, date=…).first()`: the id of the record with a key. */
    method FindByKey(key: (string, Date)) returns (r: Option<nat>)
      requires Valid()
      ensures r == IdOf(records, key)
    {
      if exists k :: k in records && Key(records[k]) == key {
        var k :| k in records && Key(records[k]) == key;
        IdOfUnique(records, key, k);
        r := Some(k);
      } else {
        r := None;
      }
    }

    /** `filter(date=d).first()`: the lowest id among the records of a date. */
    method FirstOfDate(d: Date) returns (r: Option<nat>)
      ensures r.None? <==> DateIds(records, d) == {}
      ensures r.Some? ==> r.value == FirstId(DateIds(records, d))
    {
      var ids := DateIds(records, d);
      r := None;
      var rest := ids;
      while rest != {}
        invariant rest <= ids
        invariant r.None? <==> rest == ids
        invariant r.Some? ==> r.value in ids && (forall j :: j in ids - rest ==> r.value <= j)
        decreases rest
      {
        var k :| k in rest;
        ghost var seen := ids - rest;
        if r.None? || k < r.value {
          r := Some(k);
        }
        assert ids - (rest - {k}) == seen + {k};
        rest := rest - {k};
      }
      if r.Some? {
        var f := FirstId(ids);
        assert ids - rest == ids;
        assert r.value <= f && f <= r.value;
      }
    }

    /** `sum(record.addtnl_days for record in filter(date=d))`. */
    method SumOfDate(d: Date) returns (total: real)
      ensures total == SumDays(records, DateIds(records, d))
    {
      var ids := DateIds(records, d);
      var rest := ids;
      total := 0.0;
      while rest != {}
        invariant rest <= ids
        invariant total + SumDays(records, rest) == SumDays(records, ids)
        decreases rest
      {
        var k :| k in rest;
        SumDaysRemove(records, rest, k);
        total := total + records[k].addtnlDays;
        rest := rest - {k};
      }
    }

    /** `filter(date=d).delete()`: every record of the date goes; the count deleted is returned. */
    method DeleteDate(d: Date) returns (n: nat)
      requires Valid()
      modifies this`records
      ensures Valid()
      ensures n == |DateIds(old(records), d)|
      ensures records == WithoutDate(old(records), d)
    {
      n := |DateIds(records, d)|;
      records := WithoutDate(records, d);
    }

    /**
     * `bulk_create`: the records are stored under fresh consecutive ids, or, when a key is
     * taken or repeated (the database's `IntegrityError`), nothing is stored.
     */
    method BulkCreate(rs: seq<Record>) returns (r: Result<nat>)
      requires Valid()
      requires forall i :: 0 <= i < |rs| ==> ValidDate(rs[i].date)
      modifies this`records, this`nextId
      ensures Valid()
      ensures r.Ok? <==> Insertable(old(records), rs)
      ensures r.Err? ==> records == old(records) && nextId == old(nextId)
      ensures r.Ok? ==> r.value == old(nextId) && nextId == old(nextId) + |rs| &&
                        records == old(records) + NewEntries(rs, old(nextId))
    {
      if !Insertable(records, rs) {
        return Err("IntegrityError");
      }
      var start := nextId;
      UnionConsistent(records, rs, start);
      var m := records + NewEntries(rs, start);
      records := m;
      nextId := start + |rs|;
      r := Ok(start);
    }
  }

  /** Stored records are found by their key, and nothing else is. */
  lemma BulkCreateFindsEach(records: map<nat, Record>, rs: seq<Record>, start: nat, i: nat)
    requires Consistent(records + NewEntries(rs, start)) && i < |rs|
    ensures IdOf(records + NewEntries(rs, start), Key(rs[i])) == Some(start + i)
  {
    var m := records + NewEntries(rs, start);
    NewEntriesAt(rs, start, i);
    IdOfUnique(m, Key(rs[i]), start + i);
  }
}
