/** The header inventory of a safetensors checkpoint. */
module Tensors {
  import opened Results
  import opened Sorting
  import opened Extents

  datatype Entry = Malformed | Tensor(shape: seq<int>, offsets: seq<int>, dtype: string)

  /** One shard file: its size, the header length its first eight bytes spell, and the header when
      those bytes are JSON that repeats no member name. */
  datatype Shard = Shard(size: nat, length: nat, header: Option<seq<(string, Entry)>>)

  datatype Record = Record(shape: seq<int>, dtype: string, bytes: int, shard: string)

  const HEADER_CAP := 16 * 1024 * 1024
  const METADATA := "__metadata__"

  function DtypeBytes(dtype: string): Option<int> {
    if dtype in ["F64", "I64"] then Some(8)
    else if dtype in ["F32", "I32"] then Some(4)
    else if dtype in ["F16", "BF16", "I16"] then Some(2)
    else if dtype in ["I8", "U8", "BOOL", "F8_E4M3", "F8_E5M2", "F8_E4M3FNUZ", "F8_E5M2FNUZ"] then Some(1)
    else None
  }

  function Product(shape: seq<int>): int {
    if shape == [] then 1 else shape[0] * Product(shape[1..])
  }

  predicate HeaderFits(shard: Shard) {
    shard.size >= 8 && 2 <= shard.length <= HEADER_CAP && shard.length <= shard.size - 8
  }

  function Section(shard: Shard): int { shard.size - 8 - shard.length }

  predicate Counted(entry: Entry) {
    && entry.Tensor?
    && (forall i :: 0 <= i < |entry.shape| ==> entry.shape[i] >= 0)
    && |entry.offsets| == 2 && entry.offsets[0] >= 0 && entry.offsets[1] >= 0
    && DtypeBytes(entry.dtype).Some?
  }

  function Bytes(entry: Entry): int
    requires Counted(entry)
  {
    Product(entry.shape) * DtypeBytes(entry.dtype).value
  }

  /** Shape, offsets and type agree and the extent ends inside the section. */
  predicate EntryOk(entry: Entry, section: int) {
    && Counted(entry)
    && entry.offsets[1] - entry.offsets[0] == Bytes(entry)
    && entry.offsets[1] <= section
  }

  function ExtentOf(entry: Entry): Extent
    requires Counted(entry)
  {
    Extent(entry.offsets[0], entry.offsets[1])
  }

  /** The members that describe tensors. */
  function TensorsIn(items: seq<(string, Entry)>): seq<(string, Entry)> {
    if items == [] then []
    else TensorsIn(items[..|items| - 1]) + if items[|items| - 1].0 == METADATA then [] else [items[|items| - 1]]
  }

  predicate EntriesOk(items: seq<(string, Entry)>, section: int) {
    forall i :: 0 <= i < |items| ==> EntryOk(items[i].1, section)
  }

  function ExtentsOf(items: seq<(string, Entry)>, section: int): (extents: seq<Extent>)
    requires EntriesOk(items, section)
    ensures |extents| == |items| && forall i :: 0 <= i < |items| ==> extents[i] == ExtentOf(items[i].1)
  {
    seq(|items|, i requires 0 <= i < |items| => ExtentOf(items[i].1))
  }

  predicate UniqueNames(items: seq<(string, Entry)>) {
    forall i, j :: 0 <= i < j < |items| ==> items[i].0 != items[j].0
  }

  function Named(shard: Shard): seq<(string, Entry)> {
    if shard.header.None? then [] else TensorsIn(shard.header.value)
  }

  predicate Describes(shard: Shard, name: string) {
    exists i :: 0 <= i < |Named(shard)| && Named(shard)[i].0 == name
  }

  /** A shard whose header is well-formed and whose extents tile its section. */
  ghost predicate ShardOk(shard: Shard) {
    && HeaderFits(shard) && shard.header.Some? && UniqueNames(shard.header.value)
    && EntriesOk(Named(shard), Section(shard))
    && var extents := ExtentsOf(Named(shard), Section(shard));
       Tiles(extents, 0, Section(shard)) && EmptiesApart(extents)
  }

  // ----- scanning one shard

  type Records = map<string, Record>

  function RecordOf(entry: Entry, shard: string): Record
    requires Counted(entry)
  {
    Record(entry.shape, entry.dtype, Bytes(entry), shard)
  }

  /** The records after the first tensors of a shard, or nothing when one is refused. */
  function Scanned(records: Records, items: seq<(string, Entry)>, section: int, shard: string): Option<Records> {
    if items == [] then Some(records)
    else
      var last := items[|items| - 1];
      match Scanned(records, items[..|items| - 1], section, shard)
      case None => None
      case Some(known) =>
        if last.0 in known || !EntryOk(last.1, section) then None
        else Some(known[last.0 := RecordOf(last.1, shard)])
  }

  predicate NewNames(records: Records, items: seq<(string, Entry)>) {
    && UniqueNames(items)
    && forall i :: 0 <= i < |items| ==> items[i].0 !in records
  }

  lemma NewNamesSnoc(records: Records, front: seq<(string, Entry)>, last: (string, Entry), known: Records)
    requires NewNames(records, front)
    requires forall name :: name in known <==> name in records || name in NamesOf(front)
    ensures NewNames(records, front + [last]) <==> last.0 !in known
  {
    var all := front + [last];
    if last.0 !in known {
      forall i, j | 0 <= i < j < |all| ensures all[i].0 != all[j].0 {
        assert i < |front| ==> front[i].0 in NamesOf(front);
      }
    } else if last.0 in records {
      assert all[|front|].0 in records;
    } else {
      var i :| 0 <= i < |front| && front[i].0 == last.0;
      assert all[i].0 == all[|front|].0;
    }
  }

  function NamesOf(items: seq<(string, Entry)>): set<string> {
    set i | 0 <= i < |items| :: items[i].0
  }

  lemma {:induction false} ScannedNames(records: Records, items: seq<(string, Entry)>, section: int, shard: string)
    requires Scanned(records, items, section, shard).Some?
    ensures forall name :: name in Scanned(records, items, section, shard).value <==>
                           name in records || name in NamesOf(items)
  {
    if items != [] {
      var front, last := items[..|items| - 1], items[|items| - 1];
      ScannedNames(records, front, section, shard);
      assert NamesOf(items) == NamesOf(front) + {last.0} by {
        forall i | 0 <= i < |items| ensures items[i].0 in NamesOf(front) + {last.0} {
          assert i < |front| ==> front[i].0 in NamesOf(front);
        }
        assert items[|items| - 1].0 in NamesOf(items);
        forall name | name in NamesOf(front) ensures name in NamesOf(items) {
          var i :| 0 <= i < |front| && front[i].0 == name;
          assert items[i].0 == name;
        }
      }
    }
  }

  /** Scanning succeeds exactly when every tensor is new and well described. */
  lemma {:induction false} ScannedWhen(records: Records, items: seq<(string, Entry)>, section: int, shard: string)
    ensures Scanned(records, items, section, shard).Some? <==> NewNames(records, items) && EntriesOk(items, section)
  {
    if items != [] {
      var front, last := items[..|items| - 1], items[|items| - 1];
      ScannedWhen(records, front, section, shard);
      assert items == front + [last];
      if Scanned(records, front, section, shard).Some? {
        ScannedNames(records, front, section, shard);
        NewNamesSnoc(records, front, last, Scanned(records, front, section, shard).value);
      }
    }
  }

  /** What was recorded before stays. */
  lemma {:induction false} ScannedKeeps(records: Records, items: seq<(string, Entry)>, section: int, shard: string)
    requires Scanned(records, items, section, shard).Some?
    ensures forall name :: name in records ==>
      name in Scanned(records, items, section, shard).value
      && Scanned(records, items, section, shard).value[name] == records[name]
  {
    if items != [] {
      ScannedKeeps(records, items[..|items| - 1], section, shard);
    }
  }

  predicate RecordedUnder(records: Records, item: (string, Entry), shard: string) {
    Counted(item.1) && item.0 in records && records[item.0] == RecordOf(item.1, shard)
  }

  /** Each tensor of the shard is recorded under its name. */
  lemma {:induction false} ScannedHolds(records: Records, items: seq<(string, Entry)>, section: int, shard: string)
    requires Scanned(records, items, section, shard).Some?
    ensures forall i :: 0 <= i < |items| ==>
      RecordedUnder(Scanned(records, items, section, shard).value, items[i], shard)
  {
    if items != [] {
      var front, last := items[..|items| - 1], items[|items| - 1];
      var known, next := Scanned(records, front, section, shard).value, Scanned(records, items, section, shard).value;
      ScannedHolds(records, front, section, shard);
      forall i | 0 <= i < |items| ensures RecordedUnder(next, items[i], shard) {
        if i < |front| {
          assert RecordedUnder(known, front[i], shard);
        }
      }
    }
  }

  // ----- one shard

  lemma {:induction false} TensorsUnique(items: seq<(string, Entry)>)
    requires UniqueNames(items)
    ensures UniqueNames(TensorsIn(items))
    ensures forall j :: 0 <= j < |TensorsIn(items)| ==> exists i :: 0 <= i < |items| && items[i] == TensorsIn(items)[j]
  {
    if items != [] {
      var front, last := items[..|items| - 1], items[|items| - 1];
      TensorsUnique(front);
      var before, all := TensorsIn(front), TensorsIn(items);
      forall j | 0 <= j < |all|
        ensures exists i :: 0 <= i < |items| && items[i] == all[j] && (j < |before| ==> i < |front|)
      {
        if j < |before| {
          var i :| 0 <= i < |front| && front[i] == before[j];
          assert items[i] == all[j];
        } else {
          assert items[|front|] == all[j];
        }
      }
    }
  }

  ghost predicate NewShard(records: Records, shard: Shard) {
    forall i :: 0 <= i < |Named(shard)| ==> Named(shard)[i].0 !in records
  }

  lemma ShardMeans(records: Records, name: string, shard: Shard)
    requires HeaderFits(shard) && shard.header.Some? && UniqueNames(shard.header.value)
    ensures Scanned(records, Named(shard), Section(shard), name).Some? <==>
            NewShard(records, shard) && EntriesOk(Named(shard), Section(shard))
    ensures EntriesOk(Named(shard), Section(shard)) ==>
      var extents := ExtentsOf(Named(shard), Section(shard));
      Chain(Sort(extents, Before), 0, Section(shard)) <==> ShardOk(shard)
  {
    TensorsUnique(shard.header.value);
    ScannedWhen(records, Named(shard), Section(shard), name);
    if EntriesOk(Named(shard), Section(shard)) {
      var extents := ExtentsOf(Named(shard), Section(shard));
      ExtentsWithin(Named(shard), Section(shard));
      SweepMeans(extents, Section(shard));
    }
  }

  lemma ExtentsWithin(items: seq<(string, Entry)>, section: int)
    requires EntriesOk(items, section)
    ensures AllWithin(ExtentsOf(items, section), 0, section)
  {
    forall i | 0 <= i < |items|
      ensures Within(ExtentOf(items[i].1), 0, section)
    {
      assert EntryOk(items[i].1, section);
      ProductNatural(items[i].1.shape);
      TimesNatural(Product(items[i].1.shape), DtypeBytes(items[i].1.dtype).value);
    }
  }

  lemma {:induction false} ProductNatural(shape: seq<int>)
    requires forall i :: 0 <= i < |shape| ==> shape[i] >= 0
    ensures Product(shape) >= 0
  {
    if shape != [] {
      ProductNatural(shape[1..]);
      TimesNatural(shape[0], Product(shape[1..]));
    }
  }

  lemma TimesNatural(a: int, b: int)
    requires a >= 0 && b >= 0
    ensures a * b >= 0
  {
  }

  lemma {:induction false} ScanFails(records: Records, items: seq<(string, Entry)>, n: nat, section: int, shard: string)
    requires n <= |items| && Scanned(records, items[..n], section, shard).None?
    ensures Scanned(records, items, section, shard).None?
    decreases |items| - n
  {
    if n == |items| {
      assert items[..n] == items;
    } else {
      assert items[..n + 1][..n] == items[..n];
      ScanFails(records, items, n + 1, section, shard);
    }
  }

  /** The loop over a shard's header, then the sweep over its extents. */
  method ScanShard(records: Records, name: string, shard: Shard) returns (next: Option<Records>)
    ensures next.Some? <==> ShardOk(shard) && NewShard(records, shard)
    ensures next.Some? ==> next == Scanned(records, Named(shard), Section(shard), name)
  {
    if shard.size < 8 || shard.length < 2 { return None; }
    if shard.length > 16777216 || shard.length > shard.size - 8 { return None; }
    if shard.header.None? || !UniqueNames(shard.header.value) { return None; }
    ShardMeans(records, name, shard);
    var items := TensorsOnly(shard.header.value);
    var section := shard.size - 8 - shard.length;
    var extents;
    next, extents := ScanEntries(records, name, items, section);
    if next.None? { return None; }
    var accepted := Sweep(Sort(extents, Before), section);
    if !accepted { return None; }
  }

  /** The members of a header but its metadata. */
  method TensorsOnly(members: seq<(string, Entry)>) returns (items: seq<(string, Entry)>)
    ensures items == TensorsIn(members)
  {
    items := [];
    var i := 0;
    while i < |members|
      invariant 0 <= i <= |members| && items == TensorsIn(members[..i])
    {
      assert members[..i + 1][..i] == members[..i];
      if members[i].0 != "__metadata__" { items := items + [members[i]]; }
      i := i + 1;
    }
    assert members[..i] == members;
  }

  /** The width of an element. */
  const WIDTHS: map<string, int> := map[
    "F64" := 8, "I64" := 8, "F32" := 4, "I32" := 4, "F16" := 2, "BF16" := 2, "I16" := 2,
    "I8" := 1, "U8" := 1, "BOOL" := 1, "F8_E4M3" := 1, "F8_E5M2" := 1, "F8_E4M3FNUZ" := 1, "F8_E5M2FNUZ" := 1
  ]

  lemma WidthsAre(dtype: string)
    ensures DtypeBytes(dtype) == if dtype in WIDTHS then Some(WIDTHS[dtype]) else None
  {
  }

  /** One tensor's bytes, if shape, offsets and type agree and the extent ends inside the section. */
  method ReadEntry(entry: Entry, section: int) returns (bytes: Option<int>)
    ensures bytes.Some? <==> EntryOk(entry, section)
    ensures bytes.Some? ==> bytes.value == Bytes(entry)
  {
    if entry.Malformed? || |entry.offsets| != 2 { return None; }
    WidthsAre(entry.dtype);
    if entry.offsets[0] < 0 || entry.offsets[1] < 0 || entry.dtype !in WIDTHS { return None; }
    var elements, i := 1, 0;
    while i < |entry.shape|
      invariant 0 <= i <= |entry.shape| && forall k :: 0 <= k < i ==> entry.shape[k] >= 0
      invariant elements * Product(entry.shape[i..]) == Product(entry.shape)
    {
      if entry.shape[i] < 0 { return None; }
      assert entry.shape[i..][1..] == entry.shape[i + 1..];
      Regroup(elements, entry.shape[i], Product(entry.shape[i + 1..]));
      elements := elements * entry.shape[i];
      i := i + 1;
    }
    var count := elements * WIDTHS[entry.dtype];
    if entry.offsets[1] - entry.offsets[0] != count || entry.offsets[1] > section { return None; }
    bytes := Some(count);
  }

  lemma Regroup(a: int, b: int, c: int)
    ensures a * (b * c) == (a * b) * c
  {
  }

  method ScanEntries(records: Records, name: string, items: seq<(string, Entry)>, section: int)
    returns (next: Option<Records>, extents: seq<Extent>)
    ensures next == Scanned(records, items, section, name)
    ensures next.Some? ==> EntriesOk(items, section) && extents == ExtentsOf(items, section)
  {
    var known, i := records, 0;
    extents := [];
    while i < |items|
      invariant 0 <= i <= |items|
      invariant Scanned(records, items[..i], section, name) == Some(known)
      invariant EntriesOk(items[..i], section)
      invariant extents == ExtentsOf(items[..i], section)
    {
      var tensor, entry := items[i].0, items[i].1;
      assert items[..i + 1][..i] == items[..i];
      var bytes := ReadEntry(entry, section);
      if tensor in known || bytes.None? {
        ScanFails(records, items, i + 1, section, name);
        return None, [];
      }
      extents := extents + [Extent(entry.offsets[0], entry.offsets[1])];
      known := known[tensor := Record(entry.shape, entry.dtype, bytes.value, name)];
      i := i + 1;
    }
    assert items[..i] == items;
    next := Some(known);
  }

  // ----- the checkpoint

  const SINGLE := "model.safetensors"

  predicate LocalName(name: string) {
    && (forall i :: 0 <= i < |name| ==> name[i] != '/')
    && |name| >= 12 && name[|name| - 12..] == ".safetensors"
  }

  function ShardNames(index: Option<map<string, string>>): set<string> {
    match index
    case None => {SINGLE}
    case Some(weights) => weights.Values
  }

  /** Which shard records a tensor. */
  predicate Holder(directory: map<string, Shard>, shard: string, tensor: string) {
    shard in directory && Describes(directory[shard], tensor)
  }

  /** Every shard is sound, no tensor is in two of them, there is a tensor, and the index, when
      there is one, names for every tensor exactly the shard that holds it. */
  ghost predicate CheckpointOk(directory: map<string, Shard>, index: Option<map<string, string>>) {
    var shards := ShardNames(index);
    && (index.Some? ==> index.value != map[])
    && (forall s :: s in shards ==> LocalName(s))
    && directory.Keys == shards
    && ShardsOk(directory, shards)
    && IndexOk(directory, index)
  }

  ghost predicate IndexOk(directory: map<string, Shard>, index: Option<map<string, string>>) {
    && (exists s, n :: Holder(directory, s, n))
    && (index.Some? ==> forall s, n :: Holder(directory, s, n) <==> Names(index.value, s, n))
  }

  /** The records are exactly the tensors of these shards. */
  ghost predicate RecordsAre(directory: map<string, Shard>, shards: set<string>, records: Records) {
    && (forall n :: n in records ==> records[n].shard in shards && Holder(directory, records[n].shard, n))
    && (forall s, n :: s in shards && Holder(directory, s, n) ==> n in records && records[n].shard == s)
    && (forall s, i :: s in shards && s in directory && 0 <= i < |Named(directory[s])| ==>
          RecordedUnder(records, Named(directory[s])[i], s))
  }

  /** Records that keep the old ones and add exactly the tensors of one more shard. */
  ghost predicate Extends(records: Records, next: Records, shard: Shard, name: string) {
    && (forall n :: n in records ==> n in next && next[n] == records[n])
    && (forall i :: 0 <= i < |Named(shard)| ==> RecordedUnder(next, Named(shard)[i], name))
    && (forall n :: n in next ==> n in records || Describes(shard, n))
  }

  lemma ScannedExtends(records: Records, shard: Shard, name: string)
    requires Scanned(records, Named(shard), Section(shard), name).Some?
    ensures Extends(records, Scanned(records, Named(shard), Section(shard), name).value, shard, name)
  {
    ScannedKeeps(records, Named(shard), Section(shard), name);
    ScannedHolds(records, Named(shard), Section(shard), name);
    ScannedNames(records, Named(shard), Section(shard), name);
  }

  lemma DescribedRecorded(records: Records, next: Records, shard: Shard, name: string, n: string)
    requires Extends(records, next, shard, name) && Describes(shard, n)
    ensures n in next && next[n].shard == name
  {
    var i :| 0 <= i < |Named(shard)| && Named(shard)[i].0 == n;
    assert RecordedUnder(next, Named(shard)[i], name);
  }

  lemma RecordsGrow(directory: map<string, Shard>, shards: set<string>, records: Records, name: string, next: Records)
    requires RecordsAre(directory, shards, records) && name in directory && name !in shards
    requires Extends(records, next, directory[name], name)
    ensures RecordsAre(directory, shards + {name}, next)
  {
    forall n | n in next
      ensures next[n].shard in shards + {name} && Holder(directory, next[n].shard, n)
    {
      if n !in records { DescribedRecorded(records, next, directory[name], name, n); }
    }
    forall s, n | s in shards + {name} && Holder(directory, s, n)
      ensures n in next && next[n].shard == s
    {
      if s == name { DescribedRecorded(records, next, directory[name], name, n); }
    }
    forall s, i | s in shards + {name} && s in directory && 0 <= i < |Named(directory[s])|
      ensures RecordedUnder(next, Named(directory[s])[i], s)
    {
      if s in shards { assert RecordedUnder(records, Named(directory[s])[i], s); }
    }
  }

  lemma NewShardMeans(directory: map<string, Shard>, shards: set<string>, records: Records, name: string)
    requires RecordsAre(directory, shards, records) && name in directory && name !in shards
    ensures NewShard(records, directory[name]) <==>
            forall s, n :: s in shards && Holder(directory, s, n) ==> !Holder(directory, name, n)
  {
    var shard := directory[name];
    if NewShard(records, shard) {
      forall s, n | s in shards && Holder(directory, s, n)
        ensures !Holder(directory, name, n)
      {
      }
    } else {
      var i :| 0 <= i < |Named(shard)| && Named(shard)[i].0 in records;
      var n := Named(shard)[i].0;
      assert Holder(directory, name, n) && Holder(directory, records[n].shard, n);
    }
  }

  /** These shards are sound and no tensor is in two of them. */
  ghost predicate ShardsOk(directory: map<string, Shard>, shards: set<string>) {
    && (forall s :: s in shards ==> s in directory && ShardOk(directory[s]))
    && (forall s, t, n :: s in shards && t in shards && Holder(directory, s, n) && Holder(directory, t, n) ==> s == t)
  }

  lemma ShardsGrow(directory: map<string, Shard>, done: set<string>, records: Records, name: string)
    requires ShardsOk(directory, done) && RecordsAre(directory, done, records)
    requires name in directory && name !in done
    ensures ShardsOk(directory, done + {name}) <==> ShardOk(directory[name]) && NewShard(records, directory[name])
  {
    NewShardMeans(directory, done, records, name);
    if ShardsOk(directory, done + {name}) {
      forall s, n | s in done && Holder(directory, s, n)
        ensures !Holder(directory, name, n)
      {
        assert s in done + {name} && name in done + {name};
      }
    }
  }

  /** The loop over the shards, in any order. */
  method ScanAll(directory: map<string, Shard>, shards: set<string>) returns (records: Option<Records>)
    requires shards <= directory.Keys
    ensures records.Some? <==> ShardsOk(directory, shards)
    ensures records.Some? ==> RecordsAre(directory, shards, records.value)
  {
    var found: Records, todo := map[], shards;
    ghost var done := {};
    while todo != {}
      invariant done !! todo && done + todo == shards
      invariant RecordsAre(directory, done, found)
      invariant ShardsOk(directory, done)
      decreases todo
    {
      var shard :| shard in todo;
      var next := ScanShard(found, shard, directory[shard]);
      ShardsGrow(directory, done, found, shard);
      if next.None? {
        assert ShardsOk(directory, shards) ==> ShardsOk(directory, done + {shard});
        return None;
      }
      ScannedExtends(found, directory[shard], shard);
      RecordsGrow(directory, done, found, shard, next.value);
      found, todo, done := next.value, todo - {shard}, done + {shard};
    }
    assert done == shards;
    records := Some(found);
  }

  /** The whole inventory. */
  method Inventory(directory: map<string, Shard>, index: Option<map<string, string>>)
    returns (records: Option<Records>)
    ensures records.Some? <==> CheckpointOk(directory, index)
    ensures records.Some? ==> RecordsAre(directory, ShardNames(index), records.value)
  {
    if index.Some? && index.value == map[] { return None; }
    var shards := ShardNames(index);
    if exists s :: s in shards && (|s| < 12 || s[|s| - 12..] != ".safetensors" || '/' in s) { return None; }
    if directory.Keys != shards { return None; }
    records := ScanAll(directory, shards);
    if records.None? { return None; }
    IndexMeans(directory, index, records.value);
    if !IndexMatches(index, records.value) { return None; }
  }

  predicate IndexMatches(index: Option<map<string, string>>, records: Records) {
    records != map[] && (index.Some? ==> index.value == ShardsOf(records))
  }

  function ShardsOf(records: Records): map<string, string> {
    map n | n in records :: records[n].shard
  }

  predicate Names(weights: map<string, string>, s: string, n: string) {
    n in weights && weights[n] == s
  }

  /** Two name tables are equal when they name the same shard for the same tensors. */
  lemma TablesEqual(one: map<string, string>, two: map<string, string>)
    requires forall s, n :: Names(one, s, n) <==> Names(two, s, n)
    ensures one == two
  {
    forall n | n in one || n in two
      ensures n in one && n in two && one[n] == two[n]
    {
      if n in one { assert Names(one, one[n], n); }
      if n in two { assert Names(two, two[n], n); }
    }
  }

  lemma HoldersNamed(directory: map<string, Shard>, shards: set<string>, records: Records, s: string, n: string)
    requires directory.Keys == shards && RecordsAre(directory, shards, records)
    ensures Holder(directory, s, n) <==> Names(ShardsOf(records), s, n)
  {
  }

  lemma IndexMeans(directory: map<string, Shard>, index: Option<map<string, string>>, records: Records)
    requires directory.Keys == ShardNames(index) && RecordsAre(directory, ShardNames(index), records)
    ensures IndexMatches(index, records) <==> IndexOk(directory, index)
  {
    forall s, n ensures Holder(directory, s, n) <==> Names(ShardsOf(records), s, n) {
      HoldersNamed(directory, ShardNames(index), records, s, n);
    }
    HeldMeans(directory, index, records, ShardsOf(records));
  }

  lemma HeldMeans(directory: map<string, Shard>, index: Option<map<string, string>>, records: Records,
                  held: map<string, string>)
    requires held == ShardsOf(records)
    requires forall s, n :: Holder(directory, s, n) <==> Names(held, s, n)
    ensures IndexMatches(index, records) <==> IndexOk(directory, index)
  {
    SomeHeld(directory, records, held);
    if index.Some? && IndexOk(directory, index) {
      forall s, n ensures Names(held, s, n) <==> Names(index.value, s, n) {
        assert Holder(directory, s, n) <==> Names(held, s, n);
      }
      TablesEqual(held, index.value);
    }
  }

  lemma SomeHeld(directory: map<string, Shard>, records: Records, held: map<string, string>)
    requires held == ShardsOf(records)
    requires forall s, n :: Holder(directory, s, n) <==> Names(held, s, n)
    ensures records != map[] <==> exists s, n :: Holder(directory, s, n)
  {
    if records != map[] {
      var n :| n in records;
      assert Names(held, records[n].shard, n);
    }
  }

  // ----- what an accepted checkpoint means

  /** Every byte of an accepted section lies in exactly one of its tensors. */
  lemma AcceptedByte(shard: Shard, b: int)
    requires ShardOk(shard) && 0 <= b < Section(shard)
    ensures exists i :: 0 <= i < |Named(shard)| && OnlyHolder(ExtentsOf(Named(shard), Section(shard)), b, i)
  {
    CoverOnce(ExtentsOf(Named(shard), Section(shard)), b);
  }

  /** The tensors' bytes, the header and its length prefix make up the file. */
  lemma AcceptedSize(shard: Shard)
    requires ShardOk(shard)
    ensures Total(Named(shard), Section(shard)) + shard.length + 8 == shard.size
  {
    var extents := ExtentsOf(Named(shard), Section(shard));
    ShardMeans(map[], "", shard);
    ExtentsWithin(Named(shard), Section(shard));
    SweepSpans(extents, Section(shard));
    TotalIsSpan(Named(shard), Section(shard));
  }

  function Total(items: seq<(string, Entry)>, section: int): int
    requires EntriesOk(items, section)
  {
    if items == [] then 0 else Bytes(items[0].1) + Total(items[1..], section)
  }

  lemma {:induction false} TotalIsSpan(items: seq<(string, Entry)>, section: int)
    requires EntriesOk(items, section)
    ensures Total(items, section) == Span(ExtentsOf(items, section))
  {
    if items != [] {
      TotalIsSpan(items[1..], section);
      assert ExtentsOf(items, section)[1..] == ExtentsOf(items[1..], section);
    }
  }
}
