/** The attachment store (host/service/src/attachment.rs): an index with its byte count, and two directories that
    must agree. Each file operation is atomic and the process may die between any two, so their order is what keeps a
    record from ever naming an object that is not there. */
module Attachments {
  const MAX_OBJECTS: nat := 512
  const MAX_TOTAL_BYTES: nat := 256 * 1024 * 1024
  const UNREFERENCED_RETENTION: nat := 24 * 60 * 60
  const REFERENCED_RETENTION: nat := 30 * 24 * 60 * 60

  datatype Record = Record(id: string, size: nat, created: nat, referenced: bool)

  function Retention(r: Record): nat {
    if r.referenced then REFERENCED_RETENTION else UNREFERENCED_RETENTION
  }

  predicate Expired(r: Record, now: nat) { now > r.created && now - r.created > Retention(r) }

  function Sum(records: seq<Record>): nat {
    if records == [] then 0 else Sum(records[..|records| - 1]) + records[|records| - 1].size
  }

  function Alive(records: seq<Record>, now: nat): seq<Record> {
    if records == [] then []
    else
      var init, last := records[..|records| - 1], records[|records| - 1];
      if Expired(last, now) then Alive(init, now) else Alive(init, now) + [last]
  }

  ghost predicate DistinctRecords(records: seq<Record>) {
    forall i, j :: 0 <= i < j < |records| ==> records[i].id != records[j].id
  }

  /** Whether one more object of this size is over a quota. */
  predicate Full(count: nat, bytes: nat, size: nat) {
    count >= MAX_OBJECTS || bytes + size > MAX_TOTAL_BYTES
  }

  // ---- the two directories ----

  datatype Disk = Disk(objects: map<string, nat>, metadata: map<string, Record>)

  /** What `read_record` trusts: a record under its own name whose object is there at its full size. */
  predicate Trusted(d: Disk, name: string)
    requires name in d.metadata
  {
    d.metadata[name].id == name && name in d.objects && d.objects[name] == d.metadata[name].size
  }

  /** Every metadata file has its object, at its full size. */
  predicate Paired(d: Disk) { forall name :: name in d.metadata ==> Trusted(d, name) }

  datatype Io =
    | MakeObject(id: string, size: nat)
    | MakeRecord(record: Record)
    | DropRecord(id: string)
    | DropObject(id: string)

  function Do(d: Disk, io: Io): Disk {
    match io
    case MakeObject(id, size) => d.(objects := d.objects[id := size])
    case MakeRecord(record) => d.(metadata := d.metadata[record.id := record])
    case DropRecord(id) => d.(metadata := d.metadata - {id})
    case DropObject(id) => d.(objects := d.objects - {id})
  }

  function DoAll(d: Disk, ios: seq<Io>): Disk
    decreases |ios|
  {
    if ios == [] then d else DoAll(Do(d, ios[0]), ios[1..])
  }

  /** One operation of the store; `at` is the time a record is found to be past its retention. */
  datatype Op =
    | Store(record: Record)
    | StoreFails(id: string, size: nat)
    | Discard(id: string, at: nat)
    | Touch(record: Record)

  /** The file operations of one store operation, in the order the source does them. */
  function IosOf(op: Op): seq<Io> {
    match op
    case Store(record) => [MakeObject(record.id, record.size), MakeRecord(record)]
    case StoreFails(id, size) => [MakeObject(id, size), DropObject(id)]
    case Discard(id, _) => [DropRecord(id), DropObject(id)]
    case Touch(record) => [MakeRecord(record.(referenced := true))]
  }

  /** New identifiers are new; only what is stored is touched, and only what has expired is discarded. */
  predicate Possible(d: Disk, op: Op) {
    match op
    case Store(record) => record.id !in d.objects && record.id !in d.metadata
    case StoreFails(id, _) => id !in d.objects && id !in d.metadata
    case Discard(id, at) => id in d.metadata ==> Expired(d.metadata[id], at)
    case Touch(record) => record.id in d.metadata && d.metadata[record.id] == record
  }

  predicate AllPossible(d: Disk, ops: seq<Op>)
    decreases |ops|
  {
    ops == [] || (Possible(d, ops[0]) && AllPossible(DoAll(d, IosOf(ops[0])), ops[1..]))
  }

  function AllIos(ops: seq<Op>): seq<Io> {
    if ops == [] then [] else IosOf(ops[0]) + AllIos(ops[1..])
  }

  /** One operation more. */
  lemma {:induction false} OneMoreOp(d: Disk, ops: seq<Op>, op: Op)
    requires AllPossible(d, ops) && Possible(DoAll(d, AllIos(ops)), op)
    ensures AllPossible(d, ops + [op])
    ensures DoAll(d, AllIos(ops + [op])) == DoAll(DoAll(d, AllIos(ops)), IosOf(op))
    decreases |ops|
  {
    hide Possible, IosOf;
    if ops == [] {
      assert ops + [op] == [op] && [op][1..] == [];
      assert AllIos([op]) == IosOf(op) + [] == IosOf(op);
      NothingDone(d);
    } else {
      var first, rest := IosOf(ops[0]), ops[1..];
      assert (ops + [op])[0] == ops[0] && (ops + [op])[1..] == rest + [op];
      DoConcat(d, first, AllIos(rest));
      DoConcat(d, first, AllIos(rest + [op]));
      OneMoreOp(DoAll(d, first), rest, op);
    }
  }

  lemma NothingDone(d: Disk)
    ensures DoAll(d, []) == d && AllIos([]) == []
  {
  }

  lemma DoTwo(d: Disk, a: Io, b: Io)
    ensures DoAll(d, [a]) == Do(d, a) && DoAll(d, [a, b]) == Do(Do(d, a), b)
  {
    assert [a][1..] == [] && [a, b][1..] == [b] && [b][1..] == [];
    assert DoAll(Do(d, a), [b]) == Do(Do(d, a), b);
  }

  lemma OpPrefixPaired(d: Disk, op: Op, n: nat)
    requires Paired(d) && Possible(d, op) && n <= |IosOf(op)|
    ensures Paired(DoAll(d, IosOf(op)[..n]))
  {
    var ios := IosOf(op);
    DoTwo(d, ios[0], ios[|ios| - 1]);
    if n == 1 {
      assert ios[..1] == [ios[0]];
    } else if n == 2 {
      assert ios[..2] == [ios[0], ios[1]];
    }
  }

  lemma {:induction false} DoConcat(d: Disk, a: seq<Io>, b: seq<Io>)
    ensures DoAll(d, a + b) == DoAll(DoAll(d, a), b)
    decreases |a|
  {
    if a == [] {
      assert a + b == b;
    } else {
      DoConcat(Do(d, a[0]), a[1..], b);
      assert (a + b)[1..] == a[1..] + b;
    }
  }

  /** However many operations run and wherever the process dies, every record has its object. */
  lemma {:induction false} EveryCrashPointIsPaired(d: Disk, ops: seq<Op>, n: nat)
    requires Paired(d) && AllPossible(d, ops) && n <= |AllIos(ops)|
    ensures Paired(DoAll(d, AllIos(ops)[..n]))
    decreases |ops|
  {
    if ops != [] {
      var first := IosOf(ops[0]);
      if n <= |first| {
        assert AllIos(ops)[..n] == first[..n];
        OpPrefixPaired(d, ops[0], n);
      } else {
        assert AllIos(ops)[..n] == first + AllIos(ops[1..])[..n - |first|];
        DoConcat(d, first, AllIos(ops[1..])[..n - |first|]);
        OpPrefixPaired(d, ops[0], |first|);
        assert first[..|first|] == first;
        EveryCrashPointIsPaired(DoAll(d, first), ops[1..], n - |first|);
      }
    } else {
      assert AllIos(ops)[..n] == [];
    }
  }

  /** The other order of `discard` would not do: dying in between leaves a record without its object. */
  lemma DiscardOrderMatters(d: Disk, id: string)
    requires Paired(d) && id in d.metadata
    ensures Paired(Do(d, DropRecord(id))) && !Paired(Do(d, DropObject(id)))
  {
    assert id in Do(d, DropObject(id)).metadata;
  }

  // ---- what was stored is still there ----

  /** The record last written under each name, whatever became of it since. */
  function LastWritten(before: map<string, Record>, ios: seq<Io>): map<string, Record>
    decreases |ios|
  {
    if ios == [] then before
    else
      var io := ios[|ios| - 1];
      var earlier := LastWritten(before, ios[..|ios| - 1]);
      if io.MakeRecord? then earlier[io.record.id := io.record] else earlier
  }

  /** Whatever was written is on disk, but for what has expired by now. */
  ghost predicate Keeps(d: Disk, written: map<string, Record>, now: nat) {
    && d.metadata.Keys <= written.Keys
    && forall id :: id in written ==>
      if id in d.metadata then d.metadata[id] == written[id] else Expired(written[id], now)
  }

  lemma {:induction false} WrittenSplit(before: map<string, Record>, a: seq<Io>, b: seq<Io>)
    ensures LastWritten(before, a + b) == LastWritten(LastWritten(before, a), b)
    decreases |b|
  {
    if b == [] {
      assert a + b == a;
    } else {
      WrittenSplit(before, a, b[..|b| - 1]);
      assert (a + b)[..|a + b| - 1] == a + b[..|b| - 1];
    }
  }

  /** The clock a discard read was not ahead of this time. */
  predicate By(op: Op, now: nat) { op.Discard? ==> op.at <= now }

  lemma OpPrefixKeeps(d: Disk, written: map<string, Record>, op: Op, n: nat, now: nat)
    requires Keeps(d, written, now) && Possible(d, op) && By(op, now) && n <= |IosOf(op)|
    ensures Keeps(DoAll(d, IosOf(op)[..n]), LastWritten(written, IosOf(op)[..n]), now)
  {
    var ios := IosOf(op);
    DoTwo(d, ios[0], ios[|ios| - 1]);
    WrittenTwo(written, ios[0], ios[|ios| - 1]);
    NothingDone(d);
    if n == 1 {
      assert ios[..1] == [ios[0]];
    } else if n == 2 {
      assert ios[..2] == [ios[0], ios[1]];
    }
  }

  lemma WrittenTwo(before: map<string, Record>, a: Io, b: Io)
    ensures LastWritten(before, [a]) == if a.MakeRecord? then before[a.record.id := a.record] else before
    ensures LastWritten(before, [a, b]) == LastWritten(LastWritten(before, [a]), [b])
  {
    assert [a][..0] == [] && [a, b][..1] == [a] && [b][..0] == [];
  }

  /** However many operations run and wherever the process dies, only what has expired is missing. */
  lemma {:induction false} CutKeeps(d: Disk, written: map<string, Record>, ops: seq<Op>, n: nat, now: nat)
    requires Keeps(d, written, now) && AllPossible(d, ops) && (forall op :: op in ops ==> By(op, now))
    requires n <= |AllIos(ops)|
    ensures Keeps(DoAll(d, AllIos(ops)[..n]), LastWritten(written, AllIos(ops)[..n]), now)
    decreases |ops|
  {
    hide Keeps, Possible, IosOf;
    if ops != [] {
      var first := IosOf(ops[0]);
      if n <= |first| {
        assert AllIos(ops)[..n] == first[..n];
        OpPrefixKeeps(d, written, ops[0], n, now);
      } else {
        var rest := AllIos(ops[1..])[..n - |first|];
        assert AllIos(ops)[..n] == first + rest;
        DoConcat(d, first, rest);
        WrittenSplit(written, first, rest);
        OpPrefixKeeps(d, written, ops[0], |first|, now);
        assert first[..|first|] == first;
        CutKeeps(DoAll(d, first), LastWritten(written, first), ops[1..], n - |first|, now);
      }
    } else {
      assert AllIos(ops)[..n] == [];
      NothingDone(d);
    }
  }

  // ---- accounting ----

  lemma {:induction false} SumSplit(a: seq<Record>, b: seq<Record>)
    ensures Sum(a + b) == Sum(a) + Sum(b)
    decreases |b|
  {
    if b == [] {
      assert a + b == a;
    } else {
      SumSplit(a, b[..|b| - 1]);
      assert (a + b)[..|a + b| - 1] == a + b[..|b| - 1];
    }
  }

  lemma {:induction false} AliveMembers(records: seq<Record>, now: nat)
    ensures |Alive(records, now)| <= |records|
    ensures forall r :: r in Alive(records, now) <==> r in records && !Expired(r, now)
    decreases |records|
  {
    if records != [] {
      AliveMembers(records[..|records| - 1], now);
      assert records == records[..|records| - 1] + [records[|records| - 1]];
    }
  }

  lemma {:induction false} AliveIsLess(records: seq<Record>, now: nat)
    ensures Sum(Alive(records, now)) <= Sum(records)
    ensures DistinctRecords(records) ==> DistinctRecords(Alive(records, now))
    decreases |records|
  {
    hide Sum, Expired;
    if records != [] {
      var init, last := records[..|records| - 1], records[|records| - 1];
      AliveIsLess(init, now);
      AliveMembers(init, now);
      assert records == init + [last];
      SumOne(init, last);
      SumOne(Alive(init, now), last);
      forall i | 0 <= i < |Alive(init, now)| && DistinctRecords(records) ensures Alive(init, now)[i].id != last.id {
        assert Alive(init, now)[i] in init;
      }
    }
  }

  lemma NoSum()
    ensures Sum([]) == 0
  {
  }

  lemma SumOne(records: seq<Record>, last: Record)
    ensures Sum(records + [last]) == Sum(records) + last.size
  {
    assert (records + [last])[..|records|] == records;
  }

  lemma SumRest(records: seq<Record>, i: nat)
    requires i < |records|
    ensures Sum(records[i..]) == records[i].size + Sum(records[i + 1..])
  {
    SumSplit([records[i]], records[i + 1..]);
    assert [records[i]][..0] == [] && records[i..] == [records[i]] + records[i + 1..];
  }

  // ---- what is dropped ----

  function ExpiredIds(records: seq<Record>, now: nat): set<string> {
    set r | r in records && Expired(r, now) :: r.id
  }

  function Swept(d: Disk, gone: set<string>): Disk { Disk(d.objects - gone, d.metadata - gone) }

  lemma SweptOne(d: Disk, gone: set<string>, id: string, at: nat)
    ensures DoAll(Swept(d, gone), IosOf(Discard(id, at))) == Swept(d, gone + {id})
  {
    DoTwo(Swept(d, gone), DropRecord(id), DropObject(id));
  }

  /** The index and what it says is on disk. */
  ghost predicate Indexed(records: seq<Record>, d: Disk) {
    && DistinctRecords(records) && Paired(d)
    && forall r :: r in records ==> r.id in d.metadata && d.metadata[r.id] == r
  }

  lemma NothingSwept(d: Disk, now: nat)
    ensures Alive([], now) == [] && ExpiredIds([], now) == {} && Swept(d, {}) == d
  {
  }

  lemma OneMoreRecord(records: seq<Record>, i: nat, now: nat)
    requires i < |records|
    ensures var r := records[i];
      if Expired(r, now) then
        && Alive(records[..i + 1], now) == Alive(records[..i], now)
        && ExpiredIds(records[..i + 1], now) == ExpiredIds(records[..i], now) + {r.id}
      else
        && Alive(records[..i + 1], now) == Alive(records[..i], now) + [r]
        && ExpiredIds(records[..i + 1], now) == ExpiredIds(records[..i], now)
  {
    hide Expired;
    assert records[..i + 1] == records[..i] + [records[i]];
    assert records[..i + 1][..i] == records[..i];
  }

  /** Only a record past its retention is discarded. */
  lemma MayDiscard(records: seq<Record>, d: Disk, i: nat, now: nat)
    requires Indexed(records, d) && i < |records| && Expired(records[i], now)
    ensures Possible(Swept(d, ExpiredIds(records[..i], now)), Discard(records[i].id, now))
  {
    assert records[i] in records;
  }

  lemma TouchLogged(records: seq<Record>, d: Disk, k: nat)
    requires Indexed(records, d) && k < |records|
    ensures Possible(d, Touch(records[k]))
    ensures DoAll(d, IosOf(Touch(records[k]))) == Do(d, MakeRecord(records[k].(referenced := true)))
  {
    assert records[k] in records;
    DoTwo(d, MakeRecord(records[k].(referenced := true)), DropRecord(""));
  }

  /** Dropping the expired records leaves exactly the others, each with its files. */
  lemma SweptIndexed(records: seq<Record>, d: Disk, now: nat)
    requires Indexed(records, d)
    ensures Indexed(Alive(records, now), Swept(d, ExpiredIds(records, now)))
  {
    AliveMembers(records, now);
    AliveIsLess(records, now);
    forall r | r in Alive(records, now) ensures r.id !in ExpiredIds(records, now) {
      var i :| 0 <= i < |records| && records[i] == r;
      forall j | 0 <= j < |records| && Expired(records[j], now) ensures records[j].id != r.id {
      }
    }
  }

  // ---- opening ----

  /** What `load` makes of the metadata it trusts, in directory order. */
  datatype Opening = Opening(indexed: seq<Record>, unindexed: set<string>, gone: set<string>)

  function Loaded(found: seq<Record>, now: nat): Opening {
    if found == [] then Opening([], {}, {})
    else
      var before := Loaded(found[..|found| - 1], now);
      var last := found[|found| - 1];
      if Expired(last, now) then before.(gone := before.gone + {last.id})
      else if Full(|before.indexed|, Sum(before.indexed), last.size) then
        before.(unindexed := before.unindexed + {last.id})
      else before.(indexed := before.indexed + [last])
  }

  /** The names `load` reads from the metadata directory: each of them once, in any order. */
  ghost predicate Lists(d: Disk, names: seq<string>) {
    && (forall i, j :: 0 <= i < j < |names| ==> names[i] != names[j])
    && (forall name :: name in names <==> name in d.metadata)
  }

  /** The records it trusts. */
  function TrustedRecords(d: Disk, names: seq<string>): seq<Record>
    requires forall name :: name in names ==> name in d.metadata
  {
    if names == [] then []
    else
      var last := names[|names| - 1];
      TrustedRecords(d, names[..|names| - 1]) + if Trusted(d, last) then [d.metadata[last]] else []
  }

  /** The metadata files it drops, without their objects. */
  function Rejected(d: Disk, names: seq<string>): set<string>
    requires forall name :: name in names ==> name in d.metadata
  {
    set name | name in names && !Trusted(d, name)
  }

  /** The directories after the start: what is not trusted, what has expired, and what no record claims is gone. */
  function Reopened(d: Disk, names: seq<string>, now: nat): Disk
    requires forall name :: name in names ==> name in d.metadata
  {
    var o := Loaded(TrustedRecords(d, names), now);
    Disk(map id | id in d.objects && id !in o.gone
                  && (id in o.unindexed || exists r :: r in o.indexed && r.id == id) :: d.objects[id],
         d.metadata - o.gone - Rejected(d, names))
  }

  lemma {:induction false} TrustedAre(d: Disk, names: seq<string>)
    requires forall name :: name in names ==> name in d.metadata
    ensures forall r :: r in TrustedRecords(d, names) <==>
      r.id in names && Trusted(d, r.id) && d.metadata[r.id] == r
    decreases |names|
  {
    if names != [] {
      var init, last := names[..|names| - 1], names[|names| - 1];
      TrustedAre(d, init);
      assert names == init + [last];
    }
  }

  lemma {:induction false} TrustedOnce(d: Disk, names: seq<string>)
    requires forall name :: name in names ==> name in d.metadata
    requires forall i, j :: 0 <= i < j < |names| ==> names[i] != names[j]
    ensures DistinctRecords(TrustedRecords(d, names))
    decreases |names|
  {
    if names != [] {
      var init, last := names[..|names| - 1], names[|names| - 1];
      var before := TrustedRecords(d, init);
      TrustedOnce(d, init);
      TrustedAre(d, init);
      forall i | 0 <= i < |before| && Trusted(d, last) ensures before[i].id != d.metadata[last].id {
        assert before[i] in before && before[i].id in init;
      }
    }
  }

  lemma {:induction false} LoadedSplits(found: seq<Record>, now: nat)
    ensures var o := Loaded(found, now);
      && |o.indexed| <= MAX_OBJECTS && Sum(o.indexed) <= MAX_TOTAL_BYTES
      && o.gone == ExpiredIds(found, now)
      && (forall r :: r in o.indexed ==> r in found && !Expired(r, now))
      && (forall r :: r in found && !Expired(r, now) ==> r in o.indexed || r.id in o.unindexed)
      && (forall id :: id in o.unindexed ==> exists r :: r in found && !Expired(r, now) && r.id == id)
    decreases |found|
  {
    hide Sum, Expired;
    NoSum();
    if found != [] {
      var init, last := found[..|found| - 1], found[|found| - 1];
      LoadedSplits(init, now);
      assert found == init + [last];
      assert ExpiredIds(found, now) == ExpiredIds(init, now) + if Expired(last, now) then {last.id} else {};
      SumOne(Loaded(init, now).indexed, last);
    }
  }

  /** Within quota nothing is left out of the index. */
  lemma {:induction false} LoadedFits(found: seq<Record>, now: nat)
    requires |Alive(found, now)| <= MAX_OBJECTS && Sum(Alive(found, now)) <= MAX_TOTAL_BYTES
    ensures Loaded(found, now).indexed == Alive(found, now) && Loaded(found, now).unindexed == {}
    decreases |found|
  {
    hide Sum, Expired;
    if found != [] {
      var init, last := found[..|found| - 1], found[|found| - 1];
      SumOne(Alive(init, now), last);
      LoadedFits(init, now);
    }
  }

  /**
    Whatever the two directories hold, a start leaves exactly the trusted
    records that have not expired, each with its object, and no other object;
    it indexes every one of them while they fit in both quotas.
  */
  lemma ReopenKeepsTrusted(d: Disk, names: seq<string>, now: nat)
    requires Lists(d, names)
    ensures var after := Reopened(d, names, now);
      var found := TrustedRecords(d, names);
      && Paired(after) && after.objects.Keys == after.metadata.Keys
      && (forall id :: id in after.metadata <==> id in d.metadata && Trusted(d, id) && !Expired(d.metadata[id], now))
      && (forall id :: id in after.metadata ==> after.metadata[id] == d.metadata[id])
      && Sum(Loaded(found, now).indexed) <= MAX_TOTAL_BYTES && |Loaded(found, now).indexed| <= MAX_OBJECTS
      && (|Alive(found, now)| <= MAX_OBJECTS && Sum(Alive(found, now)) <= MAX_TOTAL_BYTES ==>
            Loaded(found, now).indexed == Alive(found, now))
  {
    hide Sum, Alive, Expired;
    var found := TrustedRecords(d, names);
    TrustedAre(d, names);
    LoadedSplits(found, now);
    if |Alive(found, now)| <= MAX_OBJECTS && Sum(Alive(found, now)) <= MAX_TOTAL_BYTES {
      LoadedFits(found, now);
    }
    forall id | id in d.metadata && Trusted(d, id)
      ensures id in Loaded(found, now).gone <==> Expired(d.metadata[id], now)
      ensures !Expired(d.metadata[id], now) ==>
        id in Loaded(found, now).unindexed || exists r :: r in Loaded(found, now).indexed && r.id == id {
      assert d.metadata[id] in found;
    }
  }

  /**
    No unexpired attachment is lost: for every run of operations and every cut
    of their writes, each record that was written before the cut and has not
    expired when the service starts again is still there, with its full
    object, after that start, and is indexed while they all fit.
  */
  lemma StoredSurvives(d: Disk, ops: seq<Op>, n: nat, names: seq<string>, now: nat, id: string)
    requires Paired(d) && AllPossible(d, ops) && (forall op :: op in ops ==> By(op, now))
    requires n <= |AllIos(ops)| && Lists(DoAll(d, AllIos(ops)[..n]), names)
    requires var written := LastWritten(d.metadata, AllIos(ops)[..n]); id in written && !Expired(written[id], now)
    ensures var cut := DoAll(d, AllIos(ops)[..n]);
      var r := LastWritten(d.metadata, AllIos(ops)[..n])[id];
      var after := Reopened(cut, names, now);
      var found := TrustedRecords(cut, names);
      && id in after.metadata && after.metadata[id] == r && id in after.objects && after.objects[id] == r.size
      && (|Alive(found, now)| <= MAX_OBJECTS && Sum(Alive(found, now)) <= MAX_TOTAL_BYTES ==>
            r in Loaded(found, now).indexed)
  {
    hide Sum, Alive, Expired, Reopened, Loaded, Possible, IosOf, DoAll, LastWritten, AllPossible;
    var cut := DoAll(d, AllIos(ops)[..n]);
    CutKeeps(d, d.metadata, ops, n, now);
    EveryCrashPointIsPaired(d, ops, n);
    ReopenKeepsTrusted(cut, names, now);
    TrustedAre(cut, names);
    AliveMembers(TrustedRecords(cut, names), now);
  }

  /** The loop of `load` over the metadata directory. */
  method LoadIndex(d: Disk, names: seq<string>, now: nat) returns (o: Opening, bytes: nat, rejected: set<string>)
    requires forall name :: name in names ==> name in d.metadata
    ensures o == Loaded(TrustedRecords(d, names), now) && bytes == Sum(o.indexed)
    ensures rejected == Rejected(d, names)
  {
    hide Sum, Expired, Trusted;
    NoSum();
    var indexed: seq<Record>, unindexed: set<string>, gone: set<string> := [], {}, {};
    bytes := 0;
    rejected := {};
    for i := 0 to |names|
      invariant Opening(indexed, unindexed, gone) == Loaded(TrustedRecords(d, names[..i]), now)
      invariant bytes == Sum(indexed) && rejected == Rejected(d, names[..i])
    {
      var name := names[i];
      ghost var found := TrustedRecords(d, names[..i]);
      OneName(d, names, i);
      if !Trusted(d, name) {
        rejected := rejected + {name};
        continue;
      }
      var record := d.metadata[name];
      LoadedOne(found, record, now);
      SumOne(indexed, record);
      if Expired(record, now) {
        gone := gone + {record.id};
      } else if |indexed| >= MAX_OBJECTS || bytes + record.size > MAX_TOTAL_BYTES {
        unindexed := unindexed + {record.id};
      } else {
        bytes := bytes + record.size;
        indexed := indexed + [record];
      }
    }
    assert names[..|names|] == names;
    o := Opening(indexed, unindexed, gone);
  }

  lemma LoadedOne(found: seq<Record>, record: Record, now: nat)
    ensures var before := Loaded(found, now);
      Loaded(found + [record], now) ==
        if Expired(record, now) then before.(gone := before.gone + {record.id})
        else if Full(|before.indexed|, Sum(before.indexed), record.size) then
          before.(unindexed := before.unindexed + {record.id})
        else before.(indexed := before.indexed + [record])
  {
    hide Sum, Expired;
    var all := found + [record];
    assert all[..|all| - 1] == found && all[|all| - 1] == record;
  }

  lemma OneName(d: Disk, names: seq<string>, i: nat)
    requires (forall name :: name in names ==> name in d.metadata) && i < |names|
    ensures var found, gone := TrustedRecords(d, names[..i]), Rejected(d, names[..i]);
      if Trusted(d, names[i]) then
        TrustedRecords(d, names[..i + 1]) == found + [d.metadata[names[i]]] && Rejected(d, names[..i + 1]) == gone
      else TrustedRecords(d, names[..i + 1]) == found && Rejected(d, names[..i + 1]) == gone + {names[i]}
  {
    hide Trusted;
    assert names[..i + 1][..i] == names[..i];
    assert names[..i + 1] == names[..i] + [names[i]];
  }

  // ---- the store ----

  datatype Outcome = Stored | Quota | Failed

  class AttachmentStore {
    var records: seq<Record>
    var bytes: nat
    var disk: Disk
    ghost var initial: Disk
    ghost var ops: seq<Op>

    /** The byte count is the sum of the records' sizes, within both quotas, and all of it is on disk. */
    ghost predicate Valid()
      reads this
    {
      && bytes == Sum(records) && |records| <= MAX_OBJECTS && bytes <= MAX_TOTAL_BYTES
      && Indexed(records, disk) && Logged()
    }

    /** The files are what the operations done since the start make of the ones it left. */
    ghost predicate Logged()
      reads this`initial, this`ops, this`disk
    {
      Paired(initial) && AllPossible(initial, ops) && disk == DoAll(initial, AllIos(ops))
    }

    constructor ()
      ensures Valid() && records == [] && disk == Disk(map[], map[])
    {
      records, bytes, disk := [], 0, Disk(map[], map[]);
      initial, ops := Disk(map[], map[]), [];
    }

    /** `open`, whatever the directories hold. */
    constructor Open(d: Disk, names: seq<string>, now: nat)
      requires Lists(d, names)
      ensures Valid() && records == Loaded(TrustedRecords(d, names), now).indexed && disk == Reopened(d, names, now)
    {
      var o, total, rejected := LoadIndex(d, names, now);
      records, bytes, disk := o.indexed, total, Reopened(d, names, now);
      initial, ops := Reopened(d, names, now), [];
      new;
      ReopenKeepsTrusted(d, names, now);
      LoadedIndexed(d, names, now);
    }

    /** `discard`: metadata first. */
    method DiscardFiles(id: string, now: nat)
      requires Logged() && Possible(disk, Discard(id, now))
      modifies this`disk, this`ops
      ensures Logged() && disk == DoAll(old(disk), IosOf(Discard(id, now)))
    {
      DoTwo(disk, DropRecord(id), DropObject(id));
      OneMoreOp(initial, ops, Discard(id, now));
      ops := ops + [Discard(id, now)];
      disk := Do(disk, DropRecord(id));
      disk := Do(disk, DropObject(id));
    }

    /** Drops every record past its retention, and its files. */
    method Expire(now: nat)
      requires Valid()
      modifies this
      ensures Valid() && records == Alive(old(records), now)
      ensures disk == Swept(old(disk), ExpiredIds(old(records), now))
    {
      hide Indexed, Sum, Expired, IosOf, DoAll, Logged, Possible, AllPossible, AllIos, Alive, ExpiredIds, Swept;
      assert Sum([]) == 0 by { NoSum(); }
      var kept: seq<Record> := [];
      var i := 0;
      NothingSwept(disk, now);
      assert records[..0] == [] && records[0..] == records;
      while i < |records|
        invariant 0 <= i <= |records| && records == old(records)
        invariant kept == Alive(records[..i], now)
        invariant bytes == Sum(kept) + Sum(records[i..])
        invariant disk == Swept(old(disk), ExpiredIds(records[..i], now)) && Logged()
      {
        var record := records[i];
        OneMoreRecord(records, i, now);
        SumRest(records, i);
        SumOne(kept, record);
        if Expired(record, now) {
          SweptOne(old(disk), ExpiredIds(records[..i], now), record.id, now);
          bytes := bytes - record.size;
          MayDiscard(records, old(disk), i, now);
          DiscardFiles(record.id, now);
        } else {
          kept := kept + [record];
        }
        i := i + 1;
      }
      assert records[..|records|] == records && records[|records|..] == [];
      SweptIndexed(records, old(disk), now);
      AliveMembers(records, now);
      AliveIsLess(records, now);
      records := kept;
    }

    /** Expiry runs only when a quota is what would refuse this object. */
    method MakeRoom(size: nat, now: nat) returns (fits: bool)
      requires Valid()
      modifies this
      ensures Valid() && records == RoomFor(old(records), size, now)
      ensures fits <==> !Full(|records|, Sum(records), size)
      ensures disk == Cleared(old(disk), old(records), size, now)
    {
      hide Indexed, Sum, Expired;
      if Full(|records|, bytes, size) {
        Expire(now);
      }
      return !Full(|records|, bytes, size);
    }

    /** Stores one object of a known size: object first, then its metadata. */
    method PutReader(id: string, size: nat, now: nat, objectLands: bool, recordLands: bool) returns (outcome: Outcome)
      requires Valid() && id !in disk.objects && id !in disk.metadata
      modifies this
      ensures Valid()
      ensures outcome.Quota? <==> Full(|Alive(old(records), now)|, Sum(Alive(old(records), now)), size)
      ensures outcome.Stored? <==> !outcome.Quota? && objectLands && recordLands
      ensures records == RoomFor(old(records), size, now)
          + if outcome.Stored? then [Record(id, size, now, false)] else []
      ensures var cleared := Cleared(old(disk), old(records), size, now);
        disk == if outcome.Stored? then
                  Disk(cleared.objects[id := size], cleared.metadata[id := Record(id, size, now, false)])
                else cleared
    {
      hide Sum, Expired, Indexed;
      RoomIsLeast(records, size, now);
      var fits := MakeRoom(size, now);
      if !fits {
        return Quota;
      }
      if !objectLands {
        return Failed;
      }
      ghost var before := disk;
      var record := Record(id, size, now, false);
      disk := Do(disk, MakeObject(id, size));
      if !recordLands {
        OneMoreOp(initial, ops, StoreFails(id, size));
        DoTwo(before, MakeObject(id, size), DropObject(id));
        ops := ops + [StoreFails(id, size)];
        disk := Do(disk, DropObject(id));
        ObjectUndone(before, id, size);
        return Failed;
      }
      OneMoreOp(initial, ops, Store(record));
      DoTwo(before, MakeObject(id, size), MakeRecord(record));
      ops := ops + [Store(record)];
      disk := Do(disk, MakeRecord(record));
      SumOne(records, record);
      OneMoreIndexed(records, before, record);
      bytes := bytes + size;
      records := records + [record];
      return Stored;
    }

    method AllKnown(ids: seq<string>) returns (known: bool)
      ensures known <==> Known(records, ids)
    {
      for n := 0 to |ids|
        invariant forall i :: 0 <= i < n ==> IsKnown(records, ids[i])
      {
        FoundIff(records, ids[n]);
        if IndexOf(records, ids[n]) == |records| {
          return false;
        }
      }
      return true;
    }

    /** Writes one record over, referenced, and takes note of it. */
    method WriteReferenced(k: nat)
      requires Valid() && k < |records|
      modifies this
      ensures Valid() && bytes == old(bytes) && OnlyTouches(old(disk), disk, [old(records)[k].id])
      ensures records == old(records)[k := old(records)[k].(referenced := true)]
    {
      hide Sum, Indexed, AllPossible, DoAll, AllIos, IosOf;
      TouchedIndexed(records, disk, k);
      TouchLogged(records, disk, k);
      OneMoreOp(initial, ops, Touch(records[k]));
      ops := ops + [Touch(records[k])];
      disk := Do(disk, MakeRecord(records[k].(referenced := true)));
      records := records[k := records[k].(referenced := true)];
    }

    /** One metadata write for each named record that was not referenced when it was looked up. */
    method MarkReferenced(ids: seq<string>, writes: nat) returns (stored: bool)
      requires Valid() && Known(records, ids)
      modifies this
      ensures Valid() && bytes == old(bytes) && OnlyTouches(old(disk), disk, ids)
      ensures exists m: nat :: MarkedUpTo(old(records), records, ids, m, writes) && (stored <==> m == |ids|)
    {
      assert DistinctRecords(records);
      hide Sum, Expired, Indexed, Unmarked, MarksOnly;
      ghost var before := disk;
      var taken := records;
      var left := writes;
      var n := 0;
      NothingMarked(records, ids);
      while n < |ids|
        invariant 0 <= n <= |ids| && Valid() && bytes == old(bytes) && OnlyTouches(before, disk, ids)
        invariant MarksOnly(taken, records, ids[..n]) && left == writes - Unmarked(taken, ids[..n])
      {
        var k := IndexOf(taken, ids[n]);
        MarkOne(taken, records, ids, n);
        if !taken[k].referenced {
          if left == 0 {
            assert MarkedUpTo(taken, records, ids, n, writes);
            return false;
          }
          left := left - 1;
          WriteReferenced(k);
        }
        n := n + 1;
      }
      assert MarkedUpTo(taken, records, ids, n, writes);
      return true;
    }

    /** An unknown name is refused before anything is written; a failed write ends the marking there. */
    method Resolve(ids: seq<string>, writes: nat) returns (outcome: Resolution)
      requires Valid()
      modifies this
      ensures Valid() && bytes == old(bytes) && OnlyTouches(old(disk), disk, ids)
      ensures outcome.NotFound? <==> !Known(old(records), ids)
      ensures outcome.NotFound? ==> records == old(records) && disk == old(disk)
      ensures !outcome.NotFound? ==>
          exists m: nat :: MarkedUpTo(old(records), records, ids, m, writes) && (outcome.Resolved? <==> m == |ids|)
    {
      hide Sum, Expired, Indexed, Unmarked, MarksOnly;
      var known := AllKnown(ids);
      if !known {
        return NotFound;
      }
      var stored := MarkReferenced(ids, writes);
      return if stored then Resolved else WriteFailed;
    }
  }

  /** The name is in the index. */
  ghost predicate IsKnown(records: seq<Record>, id: string) { exists r :: r in records && r.id == id }

  ghost predicate Known(records: seq<Record>, ids: seq<string>) {
    forall i :: 0 <= i < |ids| ==> IsKnown(records, ids[i])
  }

  lemma FoundIff(records: seq<Record>, id: string)
    ensures IndexOf(records, id) < |records| <==> IsKnown(records, id)
  {
    if IndexOf(records, id) < |records| {
      assert records[IndexOf(records, id)] in records;
    }
  }

  /** Exactly the named records are referenced now that were not; nothing else about any record has changed. */
  ghost predicate MarksOnly(before: seq<Record>, after: seq<Record>, names: seq<string>) {
    && |after| == |before|
    && forall i :: 0 <= i < |after| ==>
         after[i] == if before[i].id in names then before[i].(referenced := true) else before[i]
  }

  /** How many writes it takes to reference these records. */
  function Unmarked(records: seq<Record>, ids: seq<string>): nat {
    if ids == [] then 0
    else
      var n := |ids| - 1;
      var k := IndexOf(records, ids[n]);
      Unmarked(records, ids[..n]) + if k < |records| && !records[k].referenced then 1 else 0
  }

  /** The names are taken in order until the writes that may still land are used up. */
  ghost predicate MarkedUpTo(before: seq<Record>, after: seq<Record>, ids: seq<string>, m: nat, writes: nat)
  {
    && m <= |ids| && MarksOnly(before, after, ids[..m])
    && Unmarked(before, ids[..m]) <= writes
    && (m < |ids| ==> Unmarked(before, ids[..m + 1]) > writes)
  }

  /** No object is touched, and no metadata but that of the named records. */
  predicate OnlyTouches(before: Disk, after: Disk, names: seq<string>) {
    && after.objects == before.objects && after.metadata.Keys == before.metadata.Keys
    && forall id :: id in after.metadata && id !in names ==> after.metadata[id] == before.metadata[id]
  }

  lemma NothingMarked(records: seq<Record>, ids: seq<string>)
    ensures MarksOnly(records, records, ids[..0]) && Unmarked(records, ids[..0]) == 0
  {
  }

  /** One more name. */
  lemma MarkOne(before: seq<Record>, after: seq<Record>, ids: seq<string>, n: nat)
    requires n < |ids| && Known(before, ids) && DistinctRecords(before) && MarksOnly(before, after, ids[..n])
    ensures var k := IndexOf(before, ids[n]);
      && k < |after| == |before| && after[k].id == ids[n]
      && Unmarked(before, ids[..n + 1]) == Unmarked(before, ids[..n]) + (if before[k].referenced then 0 else 1)
      && MarksOnly(before,
                   if before[k].referenced then after else after[k := after[k].(referenced := true)], ids[..n + 1])
  {
    hide MarksOnly, DistinctRecords, Unmarked, IndexOf, Known, IsKnown;
    KnownAt(before, ids, n);
    var k, names := IndexOf(before, ids[n]), ids[..n];
    OneMoreName(ids, n);
    OnlyThis(before, k);
    MarksMore(before, after, names, k);
    UnmarkedMore(before, ids, n);
  }

  lemma KnownAt(records: seq<Record>, ids: seq<string>, n: nat)
    requires n < |ids| && Known(records, ids)
    ensures IndexOf(records, ids[n]) < |records|
  {
    FoundIff(records, ids[n]);
  }

  lemma OneMoreName(ids: seq<string>, n: nat)
    requires n < |ids|
    ensures ids[..n + 1] == ids[..n] + [ids[n]]
  {
  }

  lemma UnmarkedMore(records: seq<Record>, ids: seq<string>, n: nat)
    requires n < |ids| && IndexOf(records, ids[n]) < |records|
    ensures Unmarked(records, ids[..n + 1])
         == Unmarked(records, ids[..n]) + if records[IndexOf(records, ids[n])].referenced then 0 else 1
  {
    assert ids[..n + 1][..n] == ids[..n];
  }

  lemma OnlyThis(records: seq<Record>, k: nat)
    requires DistinctRecords(records) && k < |records|
    ensures forall i :: 0 <= i < |records| && i != k ==> records[i].id != records[k].id
  {
  }

  lemma MarksMore(before: seq<Record>, after: seq<Record>, names: seq<string>, k: nat)
    requires MarksOnly(before, after, names) && k < |before|
    requires forall i :: 0 <= i < |before| && i != k ==> before[i].id != before[k].id
    ensures MarksOnly(before, if before[k].referenced then after else after[k := after[k].(referenced := true)],
                      names + [before[k].id])
    ensures |after| == |before| && after[k].id == before[k].id
  {
  }

  datatype Resolution = Resolved | NotFound | WriteFailed

  function IndexOf(records: seq<Record>, id: string): (k: nat)
    ensures k <= |records| && (k < |records| ==> records[k].id == id)
    ensures forall r :: r in records && r.id == id ==> k < |records|
  {
    if records == [] then 0
    else
      var k := IndexOf(records[..|records| - 1], id);
      if k < |records| - 1 || records[|records| - 1].id == id then k else |records|
  }

  lemma {:induction false} LoadedDistinct(found: seq<Record>, now: nat)
    requires DistinctRecords(found)
    ensures DistinctRecords(Loaded(found, now).indexed)
    decreases |found|
  {
    if found != [] {
      var init := found[..|found| - 1];
      LoadedDistinct(init, now);
      LoadedSplits(init, now);
      assert forall i :: 0 <= i < |Loaded(init, now).indexed| ==> Loaded(init, now).indexed[i] in init;
    }
  }

  lemma LoadedIndexed(d: Disk, names: seq<string>, now: nat)
    requires Lists(d, names)
    ensures Indexed(Loaded(TrustedRecords(d, names), now).indexed, Reopened(d, names, now))
  {
    hide Reopened, Sum, Expired;
    var found := TrustedRecords(d, names);
    TrustedAre(d, names);
    TrustedOnce(d, names);
    ReopenKeepsTrusted(d, names, now);
    LoadedSplits(found, now);
    LoadedDistinct(found, now);
  }

  /** The index a new object is counted against. */
  function RoomFor(records: seq<Record>, size: nat, now: nat): seq<Record> {
    if Full(|records|, Sum(records), size) then Alive(records, now) else records
  }

  /** The files a new object is put beside. */
  function Cleared(d: Disk, records: seq<Record>, size: nat, now: nat): Disk {
    if Full(|records|, Sum(records), size) then Swept(d, ExpiredIds(records, now)) else d
  }

  /** Only an index that is full is cleared, of exactly the records past their retention. */
  lemma ClearedIff(records: seq<Record>, d: Disk, size: nat, now: nat, r: Record)
    requires Indexed(records, d)
    ensures var full := |records| >= 512 || Sum(records) + size > 0x1000_0000;
      var room, files := RoomFor(records, size, now), Cleared(d, records, size, now);
      && (!full ==> room == records && files == d)
      && (full ==>
            && (r in room <==> r in records && now <= r.created + if r.referenced then 2_592_000 else 86_400)
            && (r in records ==> (r.id in files.objects <==> r in room) && (r.id in files.metadata <==> r in room)))
  {
    hide Sum;
    AliveMembers(records, now);
    SweptIndexed(records, d, now);
  }

  /** A refusal is one that even dropping every expired record would not avoid. */
  lemma RoomIsLeast(records: seq<Record>, size: nat, now: nat)
    ensures var room := RoomFor(records, size, now);
      Full(|room|, Sum(room), size) <==> Full(|Alive(records, now)|, Sum(Alive(records, now)), size)
  {
    hide Sum, Expired, Alive;
    AliveMembers(records, now);
    AliveIsLess(records, now);
  }

  lemma ObjectUndone(d: Disk, id: string, size: nat)
    requires id !in d.objects
    ensures Do(Do(d, MakeObject(id, size)), DropObject(id)) == d
  {
  }

  lemma OneMoreIndexed(records: seq<Record>, d: Disk, record: Record)
    requires Indexed(records, d) && record.id !in d.objects && record.id !in d.metadata
    ensures Indexed(records + [record], Do(Do(d, MakeObject(record.id, record.size)), MakeRecord(record)))
  {
  }

  lemma TouchedIndexed(records: seq<Record>, d: Disk, k: nat)
    requires Indexed(records, d) && k < |records|
    ensures var touched := records[k].(referenced := true);
      && Indexed(records[k := touched], Do(d, MakeRecord(touched)))
      && Sum(records[k := touched]) == Sum(records)
  {
    hide Sum;
    var touched := records[k].(referenced := true);
    SameSum(records, k, touched);
    forall i | 0 <= i < |records| && i != k ensures records[i].id != touched.id {
    }
  }

  lemma SameSum(records: seq<Record>, k: nat, touched: Record)
    requires k < |records| && touched.size == records[k].size
    ensures Sum(records[k := touched]) == Sum(records)
  {
    hide Sum;
    var swapped := records[k := touched];
    SumSplit(records[..k], records[k..]);
    SumSplit(swapped[..k], swapped[k..]);
    SumRest(records, k);
    SumRest(swapped, k);
    assert records == records[..k] + records[k..] && swapped == swapped[..k] + swapped[k..];
    assert swapped[..k] == records[..k] && swapped[k + 1..] == records[k + 1..];
  }
}
