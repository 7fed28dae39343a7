/**
 The process-local chart cache: an ordered map from oldest to newest use, with an expiry
 for each entry and budgets on entries and bytes.
 */
module ChartCaching {
  import opened Prelude

  type Key = string
  type Payload = seq<int>
  type Instant = real

  datatype Limits = Limits(maxEntries: nat, maxBytes: nat, ttl: nat)
  {
    /** What the settings schema admits. */
    predicate Valid() {
      maxEntries >= 1 && maxBytes >= 1
    }
  }

  datatype Entry = Entry(key: Key, expiresAt: Instant, payload: Payload)

  // ---------------------------------------------------------------- the ordered map

  function Bytes(entries: seq<Entry>): nat {
    if entries == [] then 0 else |entries[0].payload| + Bytes(entries[1..])
  }

  lemma {:induction false} BytesConcat(a: seq<Entry>, b: seq<Entry>)
    ensures Bytes(a + b) == Bytes(a) + Bytes(b)
  {
    if a == [] {
      assert a + b == b;
    } else {
      assert (a + b)[0] == a[0] && (a + b)[1..] == a[1..] + b;
      BytesConcat(a[1..], b);
    }
  }

  predicate Distinct(entries: seq<Entry>) {
    forall i, j | 0 <= i < j < |entries| :: entries[i].key != entries[j].key
  }

  /** Position of a key in use order. */
  function Find(entries: seq<Entry>, key: Key): (i: Option<nat>)
    ensures i.Some? ==> i.value < |entries| && entries[i.value].key == key
    ensures i.None? ==> forall j | 0 <= j < |entries| :: entries[j].key != key
  {
    if entries == [] then None
    else if entries[0].key == key then Some(0)
    else
      var rest := Find(entries[1..], key);
      assert rest.None? ==> forall j | 1 <= j < |entries| :: entries[j] == entries[1..][j - 1];
      if rest.None? then None else Some(rest.value + 1)
  }

  function Removed(entries: seq<Entry>, i: nat): seq<Entry>
    requires i < |entries|
  {
    entries[..i] + entries[i + 1..]
  }

  lemma RemovedIsDistinct(entries: seq<Entry>, i: nat)
    requires Distinct(entries) && i < |entries|
    ensures Distinct(Removed(entries, i)) && Find(Removed(entries, i), entries[i].key).None?
    ensures Bytes(Removed(entries, i)) == Bytes(entries) - |entries[i].payload|
    ensures forall e | e in Removed(entries, i) :: e in entries
  {
    var rest := Removed(entries, i);
    assert forall j | 0 <= j < |rest| :: rest[j] == entries[if j < i then j else j + 1];
    BytesConcat(entries[..i], entries[i + 1..]);
    assert entries == entries[..i] + ([entries[i]] + entries[i + 1..]);
    BytesConcat(entries[..i], [entries[i]] + entries[i + 1..]);
    BytesConcat([entries[i]], entries[i + 1..]);
  }

  function Without(entries: seq<Entry>, key: Key): seq<Entry> {
    match Find(entries, key)
    case None => entries
    case Some(i) => Removed(entries, i)
  }

  /** The entries still valid at `now`, in use order. */
  function Unexpired(entries: seq<Entry>, now: Instant): seq<Entry> {
    if entries == [] then []
    else (if entries[0].expiresAt <= now then [] else [entries[0]]) + Unexpired(entries[1..], now)
  }

  lemma {:induction false} SweepKeepsExactlyUnexpired(entries: seq<Entry>, now: Instant)
    requires Distinct(entries)
    ensures Distinct(Unexpired(entries, now)) && |Unexpired(entries, now)| <= |entries|
        && Bytes(Unexpired(entries, now)) <= Bytes(entries)
    ensures forall e :: e in Unexpired(entries, now) <==> e in entries && e.expiresAt > now
  {
    if entries != [] {
      assert Distinct(entries[1..]);
      SweepKeepsExactlyUnexpired(entries[1..], now);
      assert forall e :: e in entries <==> e == entries[0] || e in entries[1..];
      forall e | e in Unexpired(entries[1..], now) ensures e.key != entries[0].key {
        var j :| 0 <= j < |entries[1..]| && entries[1..][j] == e;
        assert entries[j + 1] == e;
      }
      BytesConcat(if entries[0].expiresAt <= now then [] else [entries[0]], Unexpired(entries[1..], now));
    }
  }

  /** There is room for one more entry of `size` bytes. */
  predicate Fits(limits: Limits, entries: seq<Entry>, size: nat) {
    |entries| < limits.maxEntries && Bytes(entries) + size <= limits.maxBytes
  }

  /** Drop the least recently used entries until the new one fits. */
  function Evicted(limits: Limits, entries: seq<Entry>, size: nat): seq<Entry> {
    if entries == [] || Fits(limits, entries, size) then entries else Evicted(limits, entries[1..], size)
  }

  /** Eviction removes a prefix, enough of it, and no more than needed. */
  lemma {:induction false} EvictionIsMinimal(limits: Limits, entries: seq<Entry>, size: nat) returns (dropped: nat)
    requires limits.Valid() && size <= limits.maxBytes
    ensures dropped <= |entries| && Evicted(limits, entries, size) == entries[dropped..]
    ensures |entries[dropped..]| + 1 <= limits.maxEntries && Bytes(entries[dropped..]) + size <= limits.maxBytes
    ensures forall k | 0 <= k < dropped ::
        |entries[k..]| + 1 > limits.maxEntries || Bytes(entries[k..]) + size > limits.maxBytes
  {
    if entries == [] || Fits(limits, entries, size) {
      dropped := 0;
    } else {
      var rest := EvictionIsMinimal(limits, entries[1..], size);
      dropped := rest + 1;
      forall k | 0 <= k < dropped
        ensures |entries[k..]| + 1 > limits.maxEntries || Bytes(entries[k..]) + size > limits.maxBytes {
        if k > 0 { assert entries[1..][k - 1..] == entries[k..]; }
      }
      assert entries[1..][rest..] == entries[dropped..];
    }
  }

  // ---------------------------------------------------------------- the operations as functions

  function AfterGet(entries: seq<Entry>, key: Key, now: Instant): seq<Entry> {
    match Find(entries, key)
    case None => entries
    case Some(i) => if entries[i].expiresAt <= now then Removed(entries, i) else Removed(entries, i) + [entries[i]]
  }

  function Hit(entries: seq<Entry>, key: Key, now: Instant): Option<Payload> {
    match Find(entries, key)
    case None => None
    case Some(i) => if entries[i].expiresAt <= now then None else Some(entries[i].payload)
  }

  /** Oversized results, and every result while caching is disabled, are not admitted. */
  predicate Admits(limits: Limits, payload: Payload) {
    |payload| <= limits.maxBytes && limits.ttl > 0
  }

  function AfterPut(limits: Limits, entries: seq<Entry>, key: Key, payload: Payload, now: Instant): seq<Entry> {
    if !Admits(limits, payload) then entries
    else Evicted(limits, Unexpired(Without(entries, key), now), |payload|)
         + [Entry(key, now + limits.ttl as real, payload)]
  }

  class ChartCache {
    const limits: Limits
    var entries: seq<Entry>      // least recently used first
    var bytes: int

    ghost predicate Valid()
      reads this
    {
      limits.Valid() && Distinct(entries) && bytes == Bytes(entries) && |entries| <= limits.maxEntries
          && bytes <= limits.maxBytes
    }

    constructor (limits: Limits)
      requires limits.Valid()
      ensures Valid() && entries == [] && this.limits == limits
    {
      this.limits := limits;
      entries, bytes := [], 0;
    }

    method Get(key: Key, now: Instant) returns (payload: Option<Payload>)
      requires Valid()
      modifies this
      ensures Valid()
      ensures payload == Hit(old(entries), key, now) && entries == AfterGet(old(entries), key, now)
    {
      var found := Find(entries, key);
      if found.None? { return None; }
      var entry := entries[found.value];
      RemovedIsDistinct(entries, found.value);
      if entry.expiresAt <= now {
        bytes := bytes - |entry.payload|;
        entries := Removed(entries, found.value);
        return None;
      }
      BytesConcat(Removed(entries, found.value), [entry]);
      entries := Removed(entries, found.value) + [entry];
      payload := Some(entry.payload);
    }

    method Put(key: Key, payload: Payload, now: Instant)
      requires Valid()
      modifies this
      ensures Valid()
      ensures entries == AfterPut(limits, old(entries), key, payload, now)
    {
      if |payload| > limits.maxBytes || limits.ttl == 0 { return; }
      Remove(key);
      Sweep(now, key);
      Evict(|payload|, key);
      BytesConcat(entries, [Entry(key, now + limits.ttl as real, payload)]);
      entries := entries + [Entry(key, now + limits.ttl as real, payload)];
      bytes := bytes + |payload|;
    }

    method Remove(key: Key)
      requires Valid()
      modifies this
      ensures Valid() && entries == Without(old(entries), key) && Find(entries, key).None?
    {
      var found := Find(entries, key);
      if found.Some? {
        RemovedIsDistinct(entries, found.value);
        bytes := bytes - |entries[found.value].payload|;
        entries := Removed(entries, found.value);
      }
    }

    /** Remove what has expired, walking over a copy of the entries. */
    method Sweep(now: Instant, ghost absent: Key)
      requires Valid() && Find(entries, absent).None?
      modifies this
      ensures Valid() && entries == Unexpired(old(entries), now) && Find(entries, absent).None?
    {
      var copy := entries;
      var i := 0;
      assert copy[..0] == [] && copy[0..] == copy;
      while i < |copy|
        invariant i <= |copy|
        invariant entries == Unexpired(copy[..i], now) + copy[i..] && bytes == Bytes(entries)
      {
        SweepOne(copy, i, now);
        if copy[i].expiresAt <= now {
          bytes := bytes - |copy[i].payload|;
          entries := Unexpired(copy[..i], now) + copy[i + 1..];
        }
        i := i + 1;
      }
      assert copy[..i] == copy && copy[i..] == [] && Unexpired(copy, now) + [] == Unexpired(copy, now);
      SweepKeepsExactlyUnexpired(copy, now);
      MissingStaysMissing(copy, entries, absent);
    }

    /** Drop from the front until one more entry of `size` bytes fits. */
    method Evict(size: nat, ghost absent: Key)
      requires Valid() && size <= limits.maxBytes && Find(entries, absent).None?
      modifies this
      ensures Valid() && entries == Evicted(limits, old(entries), size) && Find(entries, absent).None?
      ensures Fits(limits, entries, size)
    {
      while entries != [] && (|entries| >= limits.maxEntries || bytes + size > limits.maxBytes)
        invariant Valid() && Find(entries, absent).None?
        invariant Evicted(limits, entries, size) == Evicted(limits, old(entries), size)
        decreases |entries|
      {
        TailOf(entries, absent);
        bytes := bytes - |entries[0].payload|;
        entries := entries[1..];
      }
    }

    method Clear()
      requires Valid()
      modifies this
      ensures Valid() && entries == []
    {
      entries, bytes := [], 0;
    }
  }

  lemma {:induction false} UnexpiredSnoc(entries: seq<Entry>, i: nat, now: Instant)
    requires i < |entries|
    ensures Unexpired(entries[..i + 1], now) == Unexpired(entries[..i], now) + if entries[i].expiresAt <= now then []
        else [entries[i]]
  {
    if i == 0 {
      assert entries[..1][1..] == [] && entries[..0] == [];
    } else {
      UnexpiredSnoc(entries[1..], i - 1, now);
      assert entries[..i + 1][1..] == entries[1..][..i] && entries[..i][1..] == entries[1..][..i - 1];
    }
  }

  lemma SweepOne(copy: seq<Entry>, i: nat, now: Instant)
    requires i < |copy|
    ensures var done, rest := Unexpired(copy[..i], now), copy[i + 1..];
            && Bytes(done + copy[i..]) == Bytes(done + rest) + |copy[i].payload|
            && Unexpired(copy[..i + 1], now) + rest
               == if copy[i].expiresAt <= now then done + rest else done + copy[i..]
  {
    var done, rest := Unexpired(copy[..i], now), copy[i + 1..];
    UnexpiredSnoc(copy, i, now);
    assert copy[i..] == [copy[i]] + rest;
    assert done + copy[i..] == done + [copy[i]] + rest;
    BytesConcat(done, copy[i..]);
    BytesConcat([copy[i]], rest);
    BytesConcat(done, rest);
  }

  lemma MissingStaysMissing(a: seq<Entry>, b: seq<Entry>, key: Key)
    requires Find(a, key).None? && forall e | e in b :: e in a
    ensures Find(b, key).None?
  {
    forall j | 0 <= j < |b| ensures b[j].key != key {
      assert b[j] in a;
    }
  }

  lemma TailOf(entries: seq<Entry>, key: Key)
    requires entries != [] && Distinct(entries) && Find(entries, key).None?
    ensures Distinct(entries[1..]) && Find(entries[1..], key).None?
        && Bytes(entries) == |entries[0].payload| + Bytes(entries[1..])
  {
    MissingStaysMissing(entries, entries[1..], key);
  }

  // ---------------------------------------------------------------- whole histories

  datatype Op =
    | Get(key: Key, now: Instant)
    | Put(key: Key, payload: Payload, now: Instant)
    | Clear

  function After(limits: Limits, entries: seq<Entry>, op: Op): seq<Entry> {
    match op
    case Get(key, now) => AfterGet(entries, key, now)
    case Put(key, payload, now) => AfterPut(limits, entries, key, payload, now)
    case Clear => []
  }

  /** The cache after a history of operations. */
  function Served(limits: Limits, ops: seq<Op>): seq<Entry>
    decreases ops
  {
    if ops == [] then [] else After(limits, Served(limits, ops[..|ops| - 1]), ops[|ops| - 1])
  }

  /** The reference: what the last admitted put of a key stored, if nothing was cleared since. */
  function LatestPut(limits: Limits, ops: seq<Op>, key: Key): Option<Entry>
    decreases ops
  {
    if ops == [] then None
    else
      var last, before := ops[|ops| - 1], ops[..|ops| - 1];
      if last.Clear? then None
      else if last.Put? && last.key == key && Admits(limits, last.payload)
          then Some(Entry(key, last.now + limits.ttl as real, last.payload))
      else LatestPut(limits, before, key)
  }

  predicate Touches(limits: Limits, entries: seq<Entry>, op: Op, key: Key) {
    match op
    case Get(k, now) => k == key && Hit(entries, k, now).Some?
    case Put(k, payload, _) => k == key && Admits(limits, payload)
    case Clear => false
  }

  /** When a key was last stored or served: the number of operations up to then. */
  function LastUse(limits: Limits, ops: seq<Op>, key: Key): (n: nat)
    ensures n <= |ops|
    decreases ops
  {
    if ops == [] then 0
    else
      var last, before := ops[|ops| - 1], ops[..|ops| - 1];
      if Touches(limits, Served(limits, before), last, key) then |ops| else LastUse(limits, before, key)
  }

  /** Every entry is its key's latest admitted put, and entries stand in order of last use. */
  ghost predicate Faithful(limits: Limits, ops: seq<Op>, entries: seq<Entry>) {
    && Distinct(entries)
    && (forall i | 0 <= i < |entries| :: LatestPut(limits, ops, entries[i].key) == Some(entries[i]))
    && (forall i, j | 0 <= i < j < |entries| ::
        LastUse(limits, ops, entries[i].key) < LastUse(limits, ops, entries[j].key))
  }

  lemma RemovedIsFaithful(limits: Limits, ops: seq<Op>, entries: seq<Entry>, i: nat)
    requires Faithful(limits, ops, entries) && i < |entries|
    ensures Faithful(limits, ops, Removed(entries, i))
  {
    var rest := Removed(entries, i);
    assert forall j | 0 <= j < |rest| :: rest[j] == entries[if j < i then j else j + 1];
  }

  lemma ConsIsFaithful(limits: Limits, ops: seq<Op>, entry: Entry, rest: seq<Entry>)
    requires Faithful(limits, ops, rest) && LatestPut(limits, ops, entry.key) == Some(entry)
    requires forall e | e in rest :: e.key != entry.key && LastUse(limits, ops, entry.key) < LastUse(limits, ops, e.key)
    ensures Faithful(limits, ops, [entry] + rest)
  {
    hide LastUse, LatestPut;
    var longer := [entry] + rest;
    assert forall j | 0 < j < |longer| :: longer[j] == rest[j - 1] && longer[j] in rest;
  }

  lemma HeadComesFirst(limits: Limits, ops: seq<Op>, entries: seq<Entry>)
    requires Faithful(limits, ops, entries) && entries != []
    ensures Faithful(limits, ops, entries[1..]) && LatestPut(limits, ops, entries[0].key) == Some(entries[0])
    ensures forall e | e in entries[1..] ::
            e.key != entries[0].key && LastUse(limits, ops, entries[0].key) < LastUse(limits, ops, e.key)
  {
    hide LastUse, LatestPut;
    var tail := entries[1..];
    forall e | e in tail ensures e.key != entries[0].key
        && LastUse(limits, ops, entries[0].key) < LastUse(limits, ops, e.key) {
      var j :| 0 <= j < |tail| && tail[j] == e;
      assert entries[j + 1] == e;
    }
    SuffixIsFaithful(limits, ops, entries, 1);
  }

  lemma {:induction false} UnexpiredIsFaithful(limits: Limits, ops: seq<Op>, entries: seq<Entry>, now: Instant)
    requires Faithful(limits, ops, entries)
    ensures Faithful(limits, ops, Unexpired(entries, now))
  {
    hide LastUse, LatestPut, Faithful;
    if entries != [] {
      HeadComesFirst(limits, ops, entries);
      UnexpiredIsFaithful(limits, ops, entries[1..], now);
      FaithfulIsDistinct(limits, ops, entries[1..]);
      SweepKeepsExactlyUnexpired(entries[1..], now);
      if entries[0].expiresAt > now { ConsIsFaithful(limits, ops, entries[0], Unexpired(entries[1..], now)); }
      assert [] + Unexpired(entries[1..], now) == Unexpired(entries[1..], now);
    }
  }

  lemma FaithfulIsDistinct(limits: Limits, ops: seq<Op>, entries: seq<Entry>)
    requires Faithful(limits, ops, entries)
    ensures Distinct(entries)
  {
  }

  lemma SuffixIsFaithful(limits: Limits, ops: seq<Op>, entries: seq<Entry>, k: nat)
    requires Faithful(limits, ops, entries) && k <= |entries|
    ensures Faithful(limits, ops, entries[k..])
  {
  }

  /** An operation that touches none of the remaining entries, and clears nothing, keeps them faithful. */
  lemma UntouchedIsFaithful(limits: Limits, ops: seq<Op>, op: Op, entries: seq<Entry>)
    requires Faithful(limits, ops, entries) && !op.Clear?
    requires forall i | 0 <= i < |entries| :: !Touches(limits, Served(limits, ops), op, entries[i].key)
    requires forall i | 0 <= i < |entries| :: !(op.Put? && op.key == entries[i].key && Admits(limits, op.payload))
    ensures Faithful(limits, ops + [op], entries)
  {
    assert (ops + [op])[..|ops|] == ops;
  }

  /** A touched entry moves to the end and is again its key's latest put. */
  lemma TouchedIsFaithful(limits: Limits, ops: seq<Op>, op: Op, rest: seq<Entry>, entry: Entry)
    requires Faithful(limits, ops + [op], rest)
    requires forall i | 0 <= i < |rest| ::
            rest[i].key != entry.key && !Touches(limits, Served(limits, ops), op, rest[i].key)
    requires Touches(limits, Served(limits, ops), op, entry.key) && LatestPut(limits, ops + [op], entry.key)
        == Some(entry)
    ensures Faithful(limits, ops + [op], rest + [entry])
  {
    var more := ops + [op];
    assert more[..|ops|] == ops && more[|ops|] == op;
    assert LastUse(limits, more, entry.key) == |more|;
    forall i | 0 <= i < |rest| ensures LastUse(limits, more, rest[i].key) < |more| {
      assert LastUse(limits, more, rest[i].key) == LastUse(limits, ops, rest[i].key);
    }
  }

  lemma MissingHasNoEntry(entries: seq<Entry>, key: Key)
    requires Find(entries, key).None?
    ensures forall i | 0 <= i < |entries| :: entries[i].key != key
  {
  }

  lemma GetIsFaithful(limits: Limits, ops: seq<Op>, entries: seq<Entry>, key: Key, now: Instant)
    requires Faithful(limits, ops, entries) && entries == Served(limits, ops)
    ensures Faithful(limits, ops + [Op.Get(key, now)], AfterGet(entries, key, now))
  {
    var op := Op.Get(key, now);
    var found := Find(entries, key);
    hide LastUse, LatestPut, Served;
    if found.None? {
      UntouchedIsFaithful(limits, ops, op, entries);
    } else {
      var i := found.value;
      RemovedIsFaithful(limits, ops, entries, i);
      RemovedIsDistinct(entries, i);
      MissingHasNoEntry(Removed(entries, i), key);
      UntouchedIsFaithful(limits, ops, op, Removed(entries, i));
      if entries[i].expiresAt > now {
        LatestAfterGet(limits, ops, key, now);
        TouchedIsFaithful(limits, ops, op, Removed(entries, i), entries[i]);
      }
    }
  }

  lemma LatestAfterGet(limits: Limits, ops: seq<Op>, key: Key, now: Instant)
    ensures LatestPut(limits, ops + [Op.Get(key, now)], key) == LatestPut(limits, ops, key)
  {
    assert (ops + [Op.Get(key, now)])[..|ops|] == ops;
  }

  /** What a put keeps: the unexpired entries of other keys, less the shortest prefix that makes room. */
  lemma KeptEntries(limits: Limits, entries: seq<Entry>, key: Key, size: nat, now: Instant)
    returns (kept: seq<Entry>, dropped: nat)
    requires limits.Valid() && Distinct(entries) && size <= limits.maxBytes
    ensures var swept := Unexpired(Without(entries, key), now);
            dropped <= |swept| && kept == swept[dropped..] == Evicted(limits, swept, size)
    ensures Find(kept, key).None?
  {
    var without := Without(entries, key);
    if Find(entries, key).Some? { RemovedIsDistinct(entries, Find(entries, key).value); }
    hide Without, Removed;
    SweepKeepsExactlyUnexpired(without, now);
    dropped := EvictionIsMinimal(limits, Unexpired(without, now), size);
    kept := Unexpired(without, now)[dropped..];
    MissingStaysMissing(without, kept, key);
  }

  lemma UnrelatedToPut(limits: Limits, served: seq<Entry>, kept: seq<Entry>, key: Key, payload: Payload, now: Instant)
    requires Find(kept, key).None?
    ensures forall i | 0 <= i < |kept| ::
        kept[i].key != key && !Touches(limits, served, Op.Put(key, payload, now), kept[i].key)
    ensures Admits(limits, payload) ==> Touches(limits, served, Op.Put(key, payload, now), key)
  {
  }

  lemma PutIsFaithful(limits: Limits, ops: seq<Op>, entries: seq<Entry>, key: Key, payload: Payload, now: Instant)
    requires limits.Valid() && Faithful(limits, ops, entries) && entries == Served(limits, ops)
    ensures Faithful(limits, ops + [Op.Put(key, payload, now)], AfterPut(limits, entries, key, payload, now))
  {
    var op := Op.Put(key, payload, now);
    hide LastUse, LatestPut, Served;
    if !Admits(limits, payload) {
      UntouchedIsFaithful(limits, ops, op, entries);
    } else {
      hide Faithful, Touches, Unexpired, Evicted, Distinct;
      FaithfulIsDistinct(limits, ops, entries);
      if Find(entries, key).Some? { RemovedIsFaithful(limits, ops, entries, Find(entries, key).value); }
      UnexpiredIsFaithful(limits, ops, Without(entries, key), now);
      var kept, dropped := KeptEntries(limits, entries, key, |payload|, now);
      SuffixIsFaithful(limits, ops, Unexpired(Without(entries, key), now), dropped);
      UnrelatedToPut(limits, Served(limits, ops), kept, key, payload, now);
      UntouchedIsFaithful(limits, ops, op, kept);
      LatestAfterPut(limits, ops, key, payload, now);
      TouchedIsFaithful(limits, ops, op, kept, Entry(key, now + limits.ttl as real, payload));
    }
  }

  lemma LatestAfterPut(limits: Limits, ops: seq<Op>, key: Key, payload: Payload, now: Instant)
    requires Admits(limits, payload)
    ensures LatestPut(limits, ops + [Op.Put(key, payload, now)], key)
        == Some(Entry(key, now + limits.ttl as real, payload))
  {
    assert (ops + [Op.Put(key, payload, now)])[..|ops|] == ops;
  }

  lemma {:induction false} HistoryIsFaithful(limits: Limits, ops: seq<Op>)
    requires limits.Valid()
    ensures Faithful(limits, ops, Served(limits, ops))
    decreases ops
  {
    if ops != [] {
      var last, before := ops[|ops| - 1], ops[..|ops| - 1];
      assert ops == before + [last];
      HistoryIsFaithful(limits, before);
      hide Faithful;
      match last {
        case Get(key, now) => GetIsFaithful(limits, before, Served(limits, before), key, now);
        case Put(key, payload, now) => PutIsFaithful(limits, before, Served(limits, before), key, payload, now);
        case Clear => NothingIsFaithful(limits, ops);
      }
    }
    if ops == [] { NothingIsFaithful(limits, ops); }
  }

  lemma NothingIsFaithful(limits: Limits, ops: seq<Op>)
    ensures Faithful(limits, ops, [])
  {
  }

  /** A hit returns the latest admitted put of its key, and that put has not expired. */
  lemma HitIsLatestUnexpiredPut(limits: Limits, ops: seq<Op>, key: Key, now: Instant)
    requires limits.Valid() && Hit(Served(limits, ops), key, now).Some?
    ensures LatestPut(limits, ops, key).Some?
    ensures LatestPut(limits, ops, key).value.expiresAt > now
    ensures Hit(Served(limits, ops), key, now) == Some(LatestPut(limits, ops, key).value.payload)
  {
    HistoryIsFaithful(limits, ops);
    hide Served, LatestPut, LastUse;
    var i := Find(Served(limits, ops), key).value;
    assert LatestPut(limits, ops, Served(limits, ops)[i].key) == Some(Served(limits, ops)[i]);
  }

  /** What eviction removes was used before everything that it keeps. */
  lemma EvictionIsLeastRecentlyUsed(limits: Limits, ops: seq<Op>, i: nat, j: nat)
    requires limits.Valid() && i < j < |Served(limits, ops)|
    ensures LastUse(limits, ops, Served(limits, ops)[i].key) < LastUse(limits, ops, Served(limits, ops)[j].key)
  {
    HistoryIsFaithful(limits, ops);
    hide Served, LatestPut, LastUse;
  }

  // ---------------------------------------------------------------- what is served, and for how long

  predicate Stores(limits: Limits, op: Op, key: Key) {
    op.Put? && op.key == key && Admits(limits, op.payload)
  }

  /** The operation happened no later than `now`. */
  predicate NoLater(op: Op, now: Instant) {
    op.Clear? || op.now <= now
  }

  /** The entries a put finds when it starts to make room: unexpired, and of other keys. */
  function Rivals(limits: Limits, ops: seq<Op>, n: nat): seq<Entry>
    requires n < |ops| && ops[n].Put?
  {
    Unexpired(Without(Served(limits, ops[..n]), ops[n].key), ops[n].now)
  }

  /**
   Operation `n` stores a result so large that the entry of `key` and those used since
   do not leave room for it.
   */
  predicate CrowdsOut(limits: Limits, ops: seq<Op>, n: nat, key: Key)
    requires n < |ops|
  {
    && ops[n].Put? && Admits(limits, ops[n].payload)
    && var i := Find(Rivals(limits, ops, n), key);
       i.Some? && !Fits(limits, Rivals(limits, ops, n)[i.value..], |ops[n].payload|)
  }

  lemma {:induction false} FindIsUnique(entries: seq<Entry>, entry: Entry)
    requires Distinct(entries) && entry in entries
    ensures Find(entries, entry.key).Some? && entries[Find(entries, entry.key).value] == entry
  {
    var j :| 0 <= j < |entries| && entries[j] == entry;
    var i := Find(entries, entry.key);
    assert i.value == j;
  }

  lemma FitsShorter(limits: Limits, entries: seq<Entry>, i: nat, j: nat, size: nat)
    requires i <= j <= |entries| && Fits(limits, entries[i..], size)
    ensures Fits(limits, entries[j..], size)
  {
    assert entries[i..] == entries[i..j] + entries[j..];
    BytesConcat(entries[i..j], entries[j..]);
  }

  /** Eviction spares an entry exactly when there is room for it, all that was used after it, and the new one. */
  lemma EvictionSpares(limits: Limits, entries: seq<Entry>, i: nat, size: nat)
    requires limits.Valid() && Distinct(entries) && i < |entries| && size <= limits.maxBytes
    ensures entries[i] in Evicted(limits, entries, size) <==> Fits(limits, entries[i..], size)
    ensures !Fits(limits, entries[i..], size) ==> Find(Evicted(limits, entries, size), entries[i].key).None?
  {
    var dropped := EvictionIsMinimal(limits, entries, size);
    if i >= dropped {
      FitsShorter(limits, entries, dropped, i, size);
      assert entries[dropped..][i - dropped] == entries[i];
    } else {
      forall j | 0 <= j < |entries[dropped..]| ensures entries[dropped..][j].key != entries[i].key {
        assert entries[dropped..][j] == entries[dropped + j];
      }
    }
  }

  lemma WithoutKeepsOthers(entries: seq<Entry>, key: Key, entry: Entry)
    requires Distinct(entries)
    ensures Distinct(Without(entries, key))
    ensures entry.key != key ==> (entry in Without(entries, key) <==> entry in entries)
  {
    var found := Find(entries, key);
    if found.Some? {
      var i := found.value;
      RemovedIsDistinct(entries, i);
      if entry.key != key && entry in entries {
        var j :| 0 <= j < |entries| && entries[j] == entry;
        assert Removed(entries, i)[if j < i then j else j - 1] == entry;
      }
    }
  }

  /** One operation that does not store the entry's key again. */
  lemma EntryAfter(limits: Limits, ops: seq<Op>, n: nat, entry: Entry, now: Instant)
    requires limits.Valid() && n < |ops| && Distinct(Served(limits, ops[..n]))
    requires NoLater(ops[n], now) && now < entry.expiresAt && !Stores(limits, ops[n], entry.key)
    requires Find(Served(limits, ops[..n]), entry.key).Some? ==> entry in Served(limits, ops[..n])
    ensures var before, after := Served(limits, ops[..n]), Served(limits, ops[..n + 1]);
            && Distinct(after) && (Find(after, entry.key).Some? ==> entry in after)
            && (entry in after <==> entry in before && !ops[n].Clear? && !CrowdsOut(limits, ops, n, entry.key))
  {
    hide Fits, Evicted;
    var before, op := Served(limits, ops[..n]), ops[n];
    assert ops[..n + 1][..n] == ops[..n] && ops[..n + 1][n] == op;
    var after := After(limits, before, op);
    assert Served(limits, ops[..n + 1]) == after;
    match op {
      case Clear =>
      case Get(key, at) => EntryAfterGet(before, key, at, entry);
      case Put(key, payload, at) =>
        if Admits(limits, payload) {
          EntryAfterPut(limits, before, key, payload, at, entry);
        }
    }
  }

  lemma EntryAfterGet(entries: seq<Entry>, key: Key, now: Instant, entry: Entry)
    requires Distinct(entries) && now < entry.expiresAt
    requires Find(entries, entry.key).Some? ==> entry in entries
    ensures var after := AfterGet(entries, key, now);
            && Distinct(after) && (Find(after, entry.key).Some? ==> entry in after)
            && (entry in after <==> entry in entries)
  {
    var found := Find(entries, key);
    if found.Some? {
      var i := found.value;
      RemovedIsDistinct(entries, i);
      WithoutKeepsOthers(entries, key, entry);
      if entry in entries { FindIsUnique(entries, entry); }
      MovedToEnd(Removed(entries, i), entries[i], entry);
    }
  }

  lemma MovedToEnd(rest: seq<Entry>, last: Entry, entry: Entry)
    requires Distinct(rest) && Find(rest, last.key).None?
    ensures Distinct(rest + [last])
    ensures entry.key != last.key ==> (Find(rest + [last], entry.key).Some? <==> Find(rest, entry.key).Some?)
  {
    var longer := rest + [last];
    assert forall j | 0 <= j < |rest| :: longer[j] == rest[j];
    if entry.key != last.key && Find(longer, entry.key).Some? {
      assert longer[Find(longer, entry.key).value] in rest;
    }
    if Find(rest, entry.key).Some? {
      assert longer[Find(rest, entry.key).value].key == entry.key;
    }
  }

  /** What a put finds of an unexpired entry of another key. */
  lemma LiveOthers(entries: seq<Entry>, key: Key, now: Instant, entry: Entry)
    requires Distinct(entries) && key != entry.key && now < entry.expiresAt
    requires Find(entries, entry.key).Some? ==> entry in entries
    ensures var live := Unexpired(Without(entries, key), now);
            && Distinct(live)
            && (entry in live <==> entry in entries)
            && (if entry in live then Find(live, entry.key).Some? && live[Find(live, entry.key).value] == entry
                else Find(live, entry.key).None?)
  {
    var others := Without(entries, key);
    WithoutKeepsOthers(entries, key, entry);
    SweepKeepsExactlyUnexpired(others, now);
    if entry in entries {
      FindIsUnique(Unexpired(others, now), entry);
    } else {
      if Find(entries, key).Some? { RemovedIsDistinct(entries, Find(entries, key).value); }
      MissingStaysMissing(entries, Unexpired(others, now), entry.key);
    }
  }

  /** What eviction and the new entry leave of an entry of another key. */
  lemma AfterRoomIsMade(limits: Limits, live: seq<Entry>, last: Entry, size: nat, entry: Entry)
    requires limits.Valid() && Distinct(live) && size <= limits.maxBytes && last.key != entry.key
    requires Distinct(Evicted(limits, live, size)) && Find(Evicted(limits, live, size), last.key).None?
    requires if entry in live then Find(live, entry.key).Some? && live[Find(live, entry.key).value] == entry
             else Find(live, entry.key).None?
    ensures var after := Evicted(limits, live, size) + [last];
            && Distinct(after) && (Find(after, entry.key).Some? ==> entry in after)
            && (entry in after <==> entry in live && Fits(limits, live[Find(live, entry.key).value..], size))
  {
    hide Fits, Distinct;
    var kept := Evicted(limits, live, size);
    MovedToEnd(kept, last, entry);
    if entry in live {
      EvictionSpares(limits, live, Find(live, entry.key).value, size);
    } else {
      var dropped := EvictionIsMinimal(limits, live, size);
      MissingStaysMissing(live, kept, entry.key);
    }
  }

  lemma EntryAfterPut(limits: Limits, entries: seq<Entry>, key: Key, payload: Payload, now: Instant, entry: Entry)
    requires limits.Valid() && Distinct(entries) && Admits(limits, payload) && key != entry.key && now < entry.expiresAt
    requires Find(entries, entry.key).Some? ==> entry in entries
    ensures var after, live := AfterPut(limits, entries, key, payload, now), Unexpired(Without(entries, key), now);
            && Distinct(after) && (Find(after, entry.key).Some? ==> entry in after)
            && (entry in entries ==> Find(live, entry.key).Some?)
            && (entry in after <==> entry in entries
                                    && Fits(limits, live[Find(live, entry.key).value..], |payload|))
  {
    hide Fits, Evicted, Find, Distinct, Unexpired, Without;
    var live, last := Unexpired(Without(entries, key), now), Entry(key, now + limits.ttl as real, payload);
    LiveOthers(entries, key, now, entry);
    var kept, dropped := KeptEntries(limits, entries, key, |payload|, now);
    SuffixIsDistinct(live, dropped);
    AfterRoomIsMade(limits, live, last, |payload|, entry);
  }

  lemma SuffixIsDistinct(entries: seq<Entry>, k: nat)
    requires Distinct(entries) && k <= |entries|
    ensures Distinct(entries[k..])
  {
  }

  /** The entry that operation `p` put in the cache. */
  function StoredBy(limits: Limits, ops: seq<Op>, p: nat): Entry
    requires p < |ops| && ops[p].Put?
  {
    Entry(ops[p].key, ops[p].now + limits.ttl as real, ops[p].payload)
  }

  /** Whether the result stored at `p` has been kept by every operation before `m`. */
  predicate KeptSince(limits: Limits, ops: seq<Op>, p: nat, m: nat)
    requires p < m <= |ops| && ops[p].Put?
  {
    forall n | p < n < m :: !ops[n].Clear? && !CrowdsOut(limits, ops, n, ops[p].key)
  }

  lemma JustStored(limits: Limits, ops: seq<Op>, p: nat)
    requires limits.Valid() && p < |ops| && ops[p].Put? && Admits(limits, ops[p].payload)
    ensures var served := Served(limits, ops[..p + 1]);
            Distinct(served) && StoredBy(limits, ops, p) in served
  {
    hide Served, LatestPut, LastUse;
    HistoryIsFaithful(limits, ops[..p + 1]);
    StoringAppends(limits, ops, p);
  }

  lemma StoringAppends(limits: Limits, ops: seq<Op>, p: nat)
    requires p < |ops| && ops[p].Put? && Admits(limits, ops[p].payload)
    ensures Served(limits, ops[..p + 1]) != []
        && Served(limits, ops[..p + 1])[|Served(limits, ops[..p + 1])| - 1] == StoredBy(limits, ops, p)
  {
    hide Evicted, Unexpired, Without;
    assert ops[..p + 1][..p] == ops[..p] && ops[..p + 1][p] == ops[p];
  }

  lemma {:induction false} EntryIsKeptIff(limits: Limits, ops: seq<Op>, p: nat, m: nat, now: Instant)
    requires limits.Valid() && p < m <= |ops| && ops[p].Put? && Admits(limits, ops[p].payload)
    requires now < ops[p].now + limits.ttl as real
    requires forall n | p < n < m :: NoLater(ops[n], now) && !Stores(limits, ops[n], ops[p].key)
    ensures var served, entry := Served(limits, ops[..m]), StoredBy(limits, ops, p);
            && Distinct(served) && (Find(served, entry.key).Some? ==> entry in served)
            && (entry in served <==> KeptSince(limits, ops, p, m))
    decreases m
  {
    hide CrowdsOut, Served, Distinct, Find, Stores, NoLater;
    if m == p + 1 {
      JustStored(limits, ops, p);
    } else {
      EntryIsKeptIff(limits, ops, p, m - 1, now);
      assert NoLater(ops[m - 1], now) && !Stores(limits, ops[m - 1], ops[p].key);
      EntryAfter(limits, ops, m - 1, StoredBy(limits, ops, p), now);
    }
  }

  /**
   How long a result is served. Until it expires, the last admitted put of a key is
   missing exactly when the cache was cleared after it, or some later put was so large
   that the entry and those used since it left no room.
   */
  lemma PutIsServedIff(limits: Limits, ops: seq<Op>, p: nat, now: Instant)
    requires limits.Valid() && p < |ops| && ops[p].Put? && Admits(limits, ops[p].payload)
    requires now < ops[p].now + limits.ttl as real
    requires forall n | p < n < |ops| :: NoLater(ops[n], now) && !Stores(limits, ops[n], ops[p].key)
    ensures Hit(Served(limits, ops), ops[p].key, now)
            == if KeptSince(limits, ops, p, |ops|) then Some(ops[p].payload) else None
  {
    hide KeptSince, Served, NoLater, Stores;
    assert ops[..|ops|] == ops;
    EntryIsKeptIff(limits, ops, p, |ops|, now);
    if KeptSince(limits, ops, p, |ops|) { FindIsUnique(Served(limits, ops), StoredBy(limits, ops, p)); }
  }

  /**
   Which results are admitted, and for how long: stored under a new key, a result is
   served at a later time if and only if it is within the byte budget and its period has
   not passed; a result that is not admitted changes nothing.
   */
  lemma NewPutIsServedIff(limits: Limits, entries: seq<Entry>, key: Key, payload: Payload, now: Instant, later: Instant)
    requires limits.Valid() && Distinct(entries) && Find(entries, key).None? && now <= later
    ensures Hit(AfterPut(limits, entries, key, payload, now), key, later)
            == if |payload| <= limits.maxBytes && later < now + limits.ttl as real then Some(payload) else None
    ensures |payload| > limits.maxBytes || limits.ttl == 0 ==> AfterPut(limits, entries, key, payload, now) == entries
  {
    if |payload| <= limits.maxBytes && limits.ttl > 0 {
      var kept := AdmittedIsLast(limits, entries, key, payload, now);
      hide Find, AfterPut;
      NoEntryBefore(kept, Entry(key, now + limits.ttl as real, payload));
    } else {
      assert !Admits(limits, payload);
    }
  }

  lemma AdmittedIsLast(limits: Limits, entries: seq<Entry>, key: Key, payload: Payload, now: Instant)
    returns (kept: seq<Entry>)
    requires limits.Valid() && Distinct(entries) && Admits(limits, payload)
    ensures AfterPut(limits, entries, key, payload, now) == kept + [Entry(key, now + limits.ttl as real, payload)]
    ensures Find(kept, key).None?
  {
    hide Find, Unexpired, Evicted, Without, Distinct;
    var rest, dropped := KeptEntries(limits, entries, key, |payload|, now);
    kept := rest;
  }

  lemma {:induction false} NoEntryBefore(kept: seq<Entry>, last: Entry)
    requires Find(kept, last.key).None?
    ensures Find(kept + [last], last.key) == Some(|kept|)
  {
    if kept != [] {
      assert (kept + [last])[1..] == kept[1..] + [last] && (kept + [last])[0] == kept[0];
      NoEntryBefore(kept[1..], last);
    }
  }

  // ---------------------------------------------------------------- what is missing is older than what is served

  /** The latest put of a key, if it has not expired at `now`. */
  predicate Current(limits: Limits, ops: seq<Op>, key: Key, now: Instant) {
    LatestPut(limits, ops, key).Some? && LatestPut(limits, ops, key).value.expiresAt > now
  }

  ghost predicate OlderThanServed(limits: Limits, ops: seq<Op>, key: Key) {
    forall e | e in Served(limits, ops) :: LastUse(limits, ops, key) < LastUse(limits, ops, e.key)
  }

  ghost predicate ServedOrOlder(limits: Limits, ops: seq<Op>, key: Key, now: Instant) {
    Current(limits, ops, key, now) && Find(Served(limits, ops), key).None? ==> OlderThanServed(limits, ops, key)
  }

  lemma ServedEntryIsLatest(limits: Limits, ops: seq<Op>, key: Key)
    requires limits.Valid() && Find(Served(limits, ops), key).Some?
    ensures LatestPut(limits, ops, key) == Some(Served(limits, ops)[Find(Served(limits, ops), key).value])
  {
    HistoryIsFaithful(limits, ops);
    hide Served, LatestPut, LastUse;
    assert Served(limits, ops)[Find(Served(limits, ops), key).value].key == key;
  }

  /** A key that an operation does not touch keeps its latest put and its last use; no use goes back. */
  lemma UntouchedKey(limits: Limits, before: seq<Op>, op: Op, key: Key)
    requires !op.Clear?
    ensures LastUse(limits, before, key) <= LastUse(limits, before + [op], key)
    ensures !Touches(limits, Served(limits, before), op, key) ==>
              LastUse(limits, before + [op], key) == LastUse(limits, before, key)
    ensures Touches(limits, Served(limits, before), op, key) ==> LastUse(limits, before + [op], key) == |before| + 1
    ensures !Stores(limits, op, key) ==> LatestPut(limits, before + [op], key) == LatestPut(limits, before, key)
  {
    assert (before + [op])[..|before|] == before && (before + [op])[|before|] == op;
  }

  lemma GetKeepsOlder(limits: Limits, before: seq<Op>, op: Op, key: Key, now: Instant)
    requires limits.Valid() && op.Get? && op.now <= now && ServedOrOlder(limits, before, key, now)
    requires Served(limits, before + [op]) == AfterGet(Served(limits, before), op.key, op.now)
    ensures ServedOrOlder(limits, before + [op], key, now)
  {
    var entries, after := Served(limits, before), Served(limits, before + [op]);
    hide Served, LatestPut, LastUse;
    UntouchedKey(limits, before, op, key);
    if Current(limits, before + [op], key, now) && Find(after, key).None? {
      if Find(entries, key).Some? {
        ServedEntryIsLatest(limits, before, key);
        HistoryIsFaithful(limits, before);
        EntryAfterGet(entries, op.key, op.now, entries[Find(entries, key).value]);
      }
      assert Find(entries, key).None?;
      if Find(entries, op.key).Some? {
        HistoryIsFaithful(limits, before);
        RemovedIsDistinct(entries, Find(entries, op.key).value);
      }
      forall e | e in after ensures LastUse(limits, before + [op], key) < LastUse(limits, before + [op], e.key) {
        assert e in entries;
        UntouchedKey(limits, before, op, e.key);
      }
    }
  }

  /** What eviction removes was used before everything it keeps. */
  lemma EvictedIsOlder(limits: Limits, ops: seq<Op>, live: seq<Entry>, size: nat, entry: Entry, e: Entry)
    requires limits.Valid() && size <= limits.maxBytes && Faithful(limits, ops, live)
    requires entry in live && entry !in Evicted(limits, live, size) && e in Evicted(limits, live, size)
    ensures LastUse(limits, ops, entry.key) < LastUse(limits, ops, e.key)
  {
    hide LastUse, LatestPut, Fits, Evicted;
    var dropped := EvictionIsMinimal(limits, live, size);
    var i :| 0 <= i < |live| && live[i] == entry;
    var j :| 0 <= j < |live[dropped..]| && live[dropped..][j] == e;
    assert forall n | dropped <= n < |live| :: live[n] == live[dropped..][n - dropped];
    assert i < dropped;
    assert live[dropped + j] == e;
  }

  lemma PutKeepsOlder(limits: Limits, before: seq<Op>, op: Op, key: Key, now: Instant)
    requires limits.Valid() && op.Put? && op.now <= now && Admits(limits, op.payload) && op.key != key
    requires ServedOrOlder(limits, before, key, now)
    requires Served(limits, before + [op]) == AfterPut(limits, Served(limits, before), op.key, op.payload, op.now)
    requires Current(limits, before + [op], key, now) && Find(Served(limits, before + [op]), key).None?
    ensures OlderThanServed(limits, before + [op], key)
  {
    var entries, after := Served(limits, before), Served(limits, before + [op]);
    var live, size := Unexpired(Without(entries, op.key), op.now), |op.payload|;
    HistoryIsFaithful(limits, before);
    hide Served, LatestPut, LastUse, Faithful, Unexpired, Without, Evicted;
    UntouchedKey(limits, before, op, key);
    FaithfulIsDistinct(limits, before, entries);
    WithoutIsFaithful(limits, before, entries, op.key);
    UnexpiredIsFaithful(limits, before, Without(entries, op.key), op.now);
    var kept, dropped := KeptEntries(limits, entries, op.key, size, op.now);
    forall e | e in after ensures LastUse(limits, before + [op], key) < LastUse(limits, before + [op], e.key) {
      UntouchedKey(limits, before, op, e.key);
      if e.key != op.key {
        assert e in kept && e in live;
        LiveWasServed(entries, op.key, op.now, e);
        if Find(entries, key).Some? {
          ServedEntryIsLatest(limits, before, key);
          var entry := entries[Find(entries, key).value];
          LiveOthers(entries, op.key, op.now, entry);
          NotKept(kept, after, entry);
          EvictedIsOlder(limits, before, live, size, entry, e);
        }
      }
    }
  }

  lemma NotKept(kept: seq<Entry>, after: seq<Entry>, entry: Entry)
    requires kept <= after && Find(after, entry.key).None?
    ensures entry !in kept
  {
    assert forall j | 0 <= j < |kept| :: kept[j] == after[j];
  }

  lemma WithoutIsFaithful(limits: Limits, ops: seq<Op>, entries: seq<Entry>, key: Key)
    requires Faithful(limits, ops, entries)
    ensures Faithful(limits, ops, Without(entries, key))
  {
    hide Faithful;
    if Find(entries, key).Some? { RemovedIsFaithful(limits, ops, entries, Find(entries, key).value); }
  }

  lemma LiveWasServed(entries: seq<Entry>, key: Key, now: Instant, e: Entry)
    requires Distinct(entries) && e in Unexpired(Without(entries, key), now)
    ensures e in entries
  {
    WithoutKeepsOthers(entries, key, e);
    SweepKeepsExactlyUnexpired(Without(entries, key), now);
    if Find(entries, key).Some? { RemovedIsDistinct(entries, Find(entries, key).value); }
  }

  lemma {:induction false} MissingIsOlder(limits: Limits, ops: seq<Op>, key: Key, now: Instant)
    requires limits.Valid() && forall n | 0 <= n < |ops| :: NoLater(ops[n], now)
    ensures ServedOrOlder(limits, ops, key, now)
    decreases ops
  {
    if ops != [] {
      var before, op := ops[..|ops| - 1], ops[|ops| - 1];
      assert before + [op] == ops;
      MissingIsOlder(limits, before, key, now);
      match op {
        case Clear =>
        case Get(_, _) => GetKeepsOlder(limits, before, op, key, now);
        case Put(_, payload, _) =>
          if !Admits(limits, payload) {
            RefusedPutKeepsOlder(limits, before, op, key, now);
          } else if op.key == key {
            StoringAppends(limits, ops, |ops| - 1);
            assert ops[..|ops|] == ops;
          } else if Current(limits, ops, key, now) && Find(Served(limits, ops), key).None? {
            PutKeepsOlder(limits, before, op, key, now);
          }
      }
    }
  }

  lemma RefusedPutKeepsOlder(limits: Limits, before: seq<Op>, op: Op, key: Key, now: Instant)
    requires op.Put? && !Admits(limits, op.payload) && ServedOrOlder(limits, before, key, now)
    ensures ServedOrOlder(limits, before + [op], key, now)
  {
    assert (before + [op])[..|before|] == before;
    assert Served(limits, before + [op]) == Served(limits, before);
    hide Served, LatestPut, LastUse;
    UntouchedKey(limits, before, op, key);
    forall e | e in Served(limits, before)
      ensures LastUse(limits, before, e.key) <= LastUse(limits, before + [op], e.key) {
      UntouchedKey(limits, before, op, e.key);
    }
  }

  /**
   The cache is the most recently used part of the live results: of two unexpired latest
   puts, the one used later is served whenever the other is.
   */
  lemma MoreRecentIsServed(limits: Limits, ops: seq<Op>, older: Key, newer: Key, now: Instant)
    requires limits.Valid() && forall n | 0 <= n < |ops| :: NoLater(ops[n], now)
    requires Hit(Served(limits, ops), older, now).Some? && Current(limits, ops, newer, now)
    requires LastUse(limits, ops, older) <= LastUse(limits, ops, newer)
    ensures Hit(Served(limits, ops), newer, now) == Some(LatestPut(limits, ops, newer).value.payload)
  {
    hide Served, LatestPut, LastUse, NoLater;
    MissingIsOlder(limits, ops, newer, now);
    var entries := Served(limits, ops);
    assert entries[Find(entries, older).value] in entries;
    ServedEntryIsLatest(limits, ops, newer);
  }
}
