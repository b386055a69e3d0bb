/** The SQLite-backed store object: cursor loops over blobs and rows, and one transaction per mutation. */
module SqliteStateStores {
  import opened Basics
  import opened Job
  import opened Store
  import opened Wire
  import opened StateStores
  import opened SqliteRows
  import opened SqliteTables
  import opened SqliteStores

  function Prepend(items: seq<string>, rest: Option<seq<string>>): Option<seq<string>> {
    if rest.Some? then Some(items + rest.value) else None
  }

  method ReadStrings(blob: string) returns (r: Option<seq<string>>)
    ensures r == DecodeStrings(blob)
  {
    if |blob| < 4 {
      return None;
    }
    var count := FromLittleEndian(blob[..4]);
    if count > MAX_ENCODED_ITEMS {
      return None;
    }
    var cursor := 4;
    var items: seq<string> := [];
    PrependNone(DecodeAll(blob[4..], count));
    for i := 0 to count
      invariant 4 <= cursor <= |blob|
      invariant DecodeAll(blob[4..], count) == Prepend(items, DecodeAll(blob[cursor..], count - i))
    {
      var left := blob[cursor..];
      if |left| < 4 {
        return None;
      }
      var length := FromLittleEndian(left[..4]);
      if |left| - 4 < length {
        return None;
      }
      var item := left[4..4 + length];
      assert left[4 + length..] == blob[cursor + 4 + length..];
      PrependOne(items, item, DecodeAll(left[4 + length..], count - i - 1));
      items := items + [item];
      cursor := cursor + 4 + length;
    }
    if cursor != |blob| {
      return None;
    }
    assert items + [] == items;
    return Some(items);
  }

  lemma PrependNone(rest: Option<seq<string>>)
    ensures Prepend([], rest) == rest
  {
    if rest.Some? {
      assert [] + rest.value == rest.value;
    }
  }

  lemma PrependOne(items: seq<string>, item: string, rest: Option<seq<string>>)
    ensures Prepend(items + [item], rest) == Prepend(items, Prepend([item], rest))
  {
    if rest.Some? {
      assert items + [item] + rest.value == items + ([item] + rest.value);
    }
  }

  method SplitText(text: string) returns (devices: seq<Uuid>)
    ensures devices == SplitDevices(text)
  {
    devices := [];
    var begin := 0;
    while true
      invariant 0 <= begin <= |text|
      invariant devices + SplitDevices(text[begin..]) == SplitDevices(text)
      decreases |text| - begin
    {
      var rest := text[begin..];
      var k := FindComma(rest);
      if k == |rest| {
        return devices + [rest];
      }
      assert rest[k + 1..] == text[begin + k + 1..];
      assert devices + ([rest[..k]] + SplitDevices(rest[k + 1..])) ==
        devices + [rest[..k]] + SplitDevices(rest[k + 1..]);
      devices := devices + [rest[..k]];
      begin := begin + k + 1;
    }
  }

  class SqliteStateStore {
    var tables: Tables
    const config: StoreConfig

    constructor (config: StoreConfig)
      ensures this.config == config && tables == Tables(map[], map[], 0)
    {
      this.config := config;
      tables := Tables(map[], map[], 0);
    }

    /** Reads all rows by increasing key; the first unreadable row decides the error. */
    method Load() returns (r: Result<StoreState, StoreError>)
      ensures r == DecodeTables(tables)
    {
      if tables.revision < 0 {
        return Err(BackendUnavailable);
      }
      var keys := InOrder(tables.jobs.Keys);
      assert forall i :: 0 <= i < |keys| ==> keys[i] in keys;
      var jobs := ReadRows(tables.jobs, keys);
      if jobs.Err? {
        return Err(jobs.error);
      }
      if !LeaseRowsOk(tables.leases, jobs.value) {
        return Err(InvalidLease);
      }
      var leases := LeasesOf(tables.leases);
      var matched := CheckLeaseMatrix(jobs.value, leases);
      if !matched {
        return Err(InvalidLease);
      }
      return Ok(StoreState(jobs.value, leases, tables.revision));
    }

    /** Writes job rows in place, one statement each from number `done` on, until one fails. */
    method PutJobs(records: seq<StoredJob>, done: nat, failAt: nat) returns (ok: bool)
      requires done <= failAt
      modifies this
      ensures ok <==> done + |records| <= failAt
      ensures ok ==> tables == old(tables).(jobs := PutRows(old(tables).jobs, records, EncodeRow))
    {
      for i := 0 to |records|
        invariant done + i <= failAt && tables == old(tables).(jobs := tables.jobs)
        invariant PutRows(old(tables).jobs, records, EncodeRow) == PutRows(tables.jobs, records[i..], EncodeRow)
      {
        if done + i == failAt {
          return false;
        }
        assert records[i..][0] == records[i] && records[i..][1..] == records[i + 1..];
        tables := tables.(jobs := tables.jobs[Signed64(records[i].id) := EncodeRow(records[i])]);
      }
      assert records[|records|..] == [];
      return true;
    }

    method DropLeases(uuids: seq<Uuid>, done: nat, failAt: nat) returns (ok: bool)
      requires done <= failAt
      modifies this
      ensures ok <==> done + |uuids| <= failAt
      ensures ok ==> tables == old(tables).(leases := DeleteRows(old(tables).leases, uuids))
    {
      for i := 0 to |uuids|
        invariant done + i <= failAt && tables == old(tables).(leases := tables.leases)
        invariant DeleteRows(old(tables).leases, uuids) == DeleteRows(tables.leases, uuids[i..])
      {
        if done + i == failAt {
          return false;
        }
        assert uuids[i..][0] == uuids[i] && uuids[i..][1..] == uuids[i + 1..];
        tables := tables.(leases := tables.leases - {uuids[i]});
      }
      assert uuids[|uuids|..] == [];
      return true;
    }

    /** An insert also fails when the device or the job is already in the table. */
    method AddLeases(leases: seq<Lease>, done: nat, failAt: nat) returns (ok: bool)
      requires done <= failAt
      modifies this
      ensures ok <==> done + |leases| <= failAt && InsertRows(old(tables).leases, leases).Some?
      ensures ok ==> tables == old(tables).(leases := InsertRows(old(tables).leases, leases).value)
    {
      for i := 0 to |leases|
        invariant done + i <= failAt && tables == old(tables).(leases := tables.leases)
        invariant InsertRows(old(tables).leases, leases) == InsertRows(tables.leases, leases[i..])
      {
        if done + i == failAt {
          return false;
        }
        assert leases[i..][0] == leases[i] && leases[i..][1..] == leases[i + 1..];
        var one := InsertRow(tables.leases, leases[i]);
        if one.None? {
          return false;
        }
        tables := tables.(leases := one.value);
      }
      assert leases[|leases|..] == [];
      return true;
    }

    /** The statements after the begin, in order; on failure the tables are left half written. */
    method WriteStatements(m: StateMutation, revision: int, failAt: nat) returns (ok: bool)
      requires failAt > 0
      modifies this
      ensures ok <==> Statements(m) <= failAt && WriteMutation(old(tables), m, revision).Some?
      ensures ok ==> tables == WriteMutation(old(tables), m, revision).value
    {
      ok := PutJobs(m.creates, 1, failAt);
      if ok {
        ok := PutJobs(m.updates, 1 + |m.creates|, failAt);
      }
      if ok {
        ok := DropLeases(m.releases, 1 + |m.creates| + |m.updates|, failAt);
      }
      if ok {
        ok := AddLeases(m.acquires, 1 + |m.creates| + |m.updates| + |m.releases|, failAt);
      }
      if ok {
        tables := tables.(revision := Signed64(revision));
        ok := Statements(m) <= failAt;
      }
    }

    /** One transaction: begin, decode, check, write row by row, commit. Anything else rolls back. */
    method Apply(m: StateMutation, failAt: nat) returns (code: Option<StoreError>)
      modifies this
      ensures (tables, code) == ApplyRows(old(tables), config, m, failAt)
    {
      if failAt == 0 {
        return Some(BackendUnavailable);
      }
      var loaded := Load();
      if loaded.Err? {
        return Some(loaded.error);
      }
      var outcome := ApplyEntries(loaded.value, config, m);
      if outcome.Err? {
        return Some(outcome.error);
      }
      if outcome.value.revision >= I64_LIMIT {
        return Some(InvalidMutation);
      }
      var saved := tables;
      var ok := WriteStatements(m, outcome.value.revision, failAt);
      if !ok {
        tables := saved;
        return Some(BackendUnavailable);
      }
      return None;
    }
  }

  method ReadRows(rows: map<int, Row>, keys: seq<int>) returns (r: Result<Jobs, StoreError>)
    requires forall i :: 0 <= i < |keys| ==> keys[i] in rows
    ensures r == DecodeJobs(rows, keys, DecodeRow)
    decreases keys
  {
    if keys == [] {
      return Ok(map[]);
    }
    var first := DecodeRow(rows[keys[0]]);
    if first.Err? {
      return Err(first.error);
    }
    var rest := ReadRows(rows, keys[1..]);
    if rest.Err? || first.value.id !in rest.value {
      return if rest.Err? then rest else Ok(rest.value[first.value.id := first.value]);
    }
    return Err(InvalidJob);
  }
}
