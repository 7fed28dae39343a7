/**
 The paged Parquet preview: row groups are read in order, each as a run of batches, and
 reading stops as soon as the page is full.
 */
module ParquetPreview {
  import opened Prelude

  type Batch<Row> = seq<Row>
  type Group<Row> = seq<Batch<Row>>

  function GroupRows<Row>(group: Group<Row>): seq<Row> {
    if group == [] then [] else group[0] + GroupRows(group[1..])
  }

  function FileRows<Row>(groups: seq<Group<Row>>): seq<Row> {
    if groups == [] then [] else GroupRows(groups[0]) + FileRows(groups[1..])
  }

  lemma {:induction false} GroupRowsSnoc<Row>(group: Group<Row>, j: nat)
    requires j < |group|
    ensures GroupRows(group[..j + 1]) == GroupRows(group[..j]) + group[j]
  {
    if j == 0 {
      assert group[..1] == [group[0]] && group[..0] == [] && [group[0]][1..] == [];
    } else {
      GroupRowsSnoc(group[1..], j - 1);
      assert group[..j + 1][1..] == group[1..][..j] && group[..j][1..] == group[1..][..j - 1];
    }
  }

  lemma {:induction false} FileRowsSnoc<Row>(groups: seq<Group<Row>>, i: nat)
    requires i < |groups|
    ensures FileRows(groups[..i + 1]) == FileRows(groups[..i]) + GroupRows(groups[i])
  {
    if i == 0 {
      assert groups[..1] == [groups[0]] && groups[..0] == [] && [groups[0]][1..] == [];
    } else {
      FileRowsSnoc(groups[1..], i - 1);
      assert groups[..i + 1][1..] == groups[1..][..i] && groups[..i][1..] == groups[1..][..i - 1];
    }
  }

  lemma {:induction false} FilePrefix<Row>(groups: seq<Group<Row>>, i: nat)
    requires i <= |groups|
    ensures FileRows(groups[..i]) <= FileRows(groups)
  {
    if i == 0 {
      assert groups[..0] == [];
    } else {
      FilePrefix(groups[1..], i - 1);
      assert groups[..i][1..] == groups[1..][..i - 1] && groups[..i][0] == groups[0];
    }
  }

  /** Rows `lo` (inclusive) to `hi` (exclusive) of a table, as far as it has them. */
  function Rows<Row>(table: seq<Row>, lo: nat, hi: nat): (page: seq<Row>)
    requires lo <= hi
    ensures |page| == Min(hi, |table|) - Min(lo, |table|)
  {
    table[Min(lo, |table|)..Min(hi, |table|)]
  }

  /** Adding a batch to the rows read so far adds its slice of the page. */
  lemma RowsAppend<Row>(read: seq<Row>, batch: seq<Row>, lo: nat, hi: nat)
    requires lo <= hi
    ensures var from := Min(Max(0, lo - |read|), |batch|);
            var to := Min(Max(0, hi - |read|), |batch|);
            0 <= from <= to <= |batch| && Rows(read + batch, lo, hi) == Rows(read, lo, hi) + batch[from..to]
  {
    var from := Min(Max(0, lo - |read|), |batch|);
    var to := Min(Max(0, hi - |read|), |batch|);
    assert Rows(read + batch, lo, hi) == Rows(read, lo, hi) + batch[from..to];
  }

  /** A page that is already full, or lies before the rest of the file, does not change with it. */
  lemma RowsComplete<Row>(read: seq<Row>, table: seq<Row>, lo: nat, hi: nat)
    requires lo <= hi && read <= table && |read| >= hi
    ensures Rows(table, lo, hi) == Rows(read, lo, hi)
  {
    assert table == read + table[|read|..];
    RowsAppend(read, table[|read|..], lo, hi);
  }

  /** What one batch contributes when `skip` rows of it precede the page and `remaining` rows are missing. */
  lemma BatchContributes<Row>(read: seq<Row>, batch: seq<Row>, lo: nat, hi: nat, skip: nat, remaining: nat)
    requires lo < hi && |read| < hi && skip == Max(0, lo - |read|) && remaining == hi - lo - |Rows(read, lo, hi)|
    ensures skip >= |batch| ==>
            && Rows(read + batch, lo, hi) == Rows(read, lo, hi)
            && skip - |batch| == Max(0, lo - |read + batch|) && |read + batch| < hi
    ensures skip < |batch| ==>
              && Rows(read + batch, lo, hi) == Rows(read, lo, hi) + batch[skip..skip + Min(remaining, |batch| - skip)]
              && Max(0, lo - |read + batch|) == 0
              && (remaining == Min(remaining, |batch| - skip) <==> |read + batch| >= hi)
  {
    RowsAppend(read, batch, lo, hi);
    if skip >= |batch| {
      assert batch[Min(Max(0, lo - |read|), |batch|)..Min(Max(0, hi - |read|), |batch|)] == [];
    }
  }

  /** The page filled up after some batch of this group. */
  ghost predicate FilledWithin<Row>(before: seq<Row>, group: Group<Row>, lo: nat, hi: nat, selected: seq<Row>)
    requires lo <= hi
  {
    exists j | 0 <= j <= |group| ::
      |before + GroupRows(group[..j])| >= hi && selected == Rows(before + GroupRows(group[..j]), lo, hi)
  }

  /** `iter_batches` of one row group, from the rows of the page still missing. */
  method ReadGroup<Row>(group: Group<Row>, groupStart: nat, start: nat, pageSize: nat, already: seq<Row>,
                        ghost before: seq<Row>)
    returns (selected: seq<Row>, remaining: nat)
    requires pageSize > 0 && already == Rows(before, start, start + pageSize) && |already| < pageSize
    requires groupStart == |before| < start + pageSize
    ensures remaining == pageSize - |selected|
    ensures if remaining > 0 then selected == Rows(before + GroupRows(group), start, start + pageSize)
        && |before + GroupRows(group)| < start + pageSize
            else FilledWithin(before, group, start, start + pageSize, selected)
  {
    hide Rows;
    selected, remaining := already, pageSize - |already|;
    var skip := Max(0, start - groupStart);
    var j := 0;
    ghost var read := before;
    assert group[..0] == [] && before + [] == before;
    while j < |group|
      invariant j <= |group| && read == before + GroupRows(group[..j])
      invariant selected == Rows(read, start, start + pageSize) && remaining == pageSize - |selected| > 0
      invariant skip == Max(0, start - |read|) && |read| < start + pageSize
    {
      var batch := group[j];
      GroupRowsSnoc(group, j);
      assert before + GroupRows(group[..j + 1]) == read + batch;
      BatchContributes(read, batch, start, start + pageSize, skip, remaining);
      j := j + 1;
      read := read + batch;
      if skip >= |batch| {
        skip := skip - |batch|;
        continue;
      }
      var taken := batch[skip..skip + Min(remaining, |batch| - skip)];
      selected := selected + taken;
      remaining := remaining - |taken|;
      skip := 0;
      if remaining == 0 {
        assert FilledWithin(before, group, start, start + pageSize, selected);
        return;
      }
    }
    assert group[..j] == group;
  }

  /**
   `preview`: row groups outside the page are skipped by their declared size, and both
   loops stop once the page is full.
   */
  method Preview<Row>(groups: seq<Group<Row>>, page: nat, pageSize: nat) returns (selected: seq<Row>)
    requires page >= 1 && pageSize >= 1
    ensures selected == Rows(FileRows(groups), (page - 1) * pageSize, (page - 1) * pageSize + pageSize)
  {
    var start := (page - 1) * pageSize;
    var remaining, groupStart := pageSize, 0;
    selected := [];
    var index := 0;
    assert groups[..0] == [];
    while index < |groups|
      invariant index <= |groups| && groupStart == |FileRows(groups[..index])|
      invariant selected == Rows(FileRows(groups[..index]), start, start + pageSize)
          && remaining == pageSize - |selected| > 0
      invariant groupStart < start + pageSize
    {
      ghost var read := FileRows(groups[..index]);
      FileRowsSnoc(groups, index);
      var groupEnd := groupStart + |GroupRows(groups[index])|;
      RowsAppend(read, GroupRows(groups[index]), start, start + pageSize);
      if groupEnd > start && groupStart < start + pageSize {
        selected, remaining := ReadGroup(groups[index], groupStart, start, pageSize, selected, read);
        if remaining == 0 { FullPage(groups, index, read, start, pageSize, selected); }
      }
      groupStart := groupEnd;
      index := index + 1;
      if remaining == 0 || groupStart >= start + pageSize { return; }
    }
    assert groups[..index] == groups;
  }

  /** What was read of the file's prefix when the page filled up is the page. */
  lemma FullPage<Row>(groups: seq<Group<Row>>, index: nat, read: seq<Row>, start: nat, pageSize: nat,
                      selected: seq<Row>)
    requires index < |groups| && read == FileRows(groups[..index])
    requires FilledWithin(read, groups[index], start, start + pageSize, selected)
    ensures selected == Rows(FileRows(groups), start, start + pageSize)
  {
    hide Rows, FileRows, GroupRows;
    var j: nat :| j <= |groups[index]| && |read + GroupRows(groups[index][..j])| >= start + pageSize
                  && selected == Rows(read + GroupRows(groups[index][..j]), start, start + pageSize);
    ReadIsPrefix(groups, index, j);
    RowsComplete(read + GroupRows(groups[index][..j]), FileRows(groups), start, start + pageSize);
  }

  /** Whole groups, then some batches of the next one: the beginning of the file. */
  lemma ReadIsPrefix<Row>(groups: seq<Group<Row>>, index: nat, j: nat)
    requires index < |groups| && j <= |groups[index]|
    ensures FileRows(groups[..index]) + GroupRows(groups[index][..j]) <= FileRows(groups)
  {
    FileRowsSnoc(groups, index);
    FilePrefix(groups, index + 1);
    GroupPrefix(groups[index], j);
    hide FileRows, GroupRows;
    var a, b, c := FileRows(groups[..index]), GroupRows(groups[index][..j]), GroupRows(groups[index]);
    assert a + b <= a + c;
  }

  lemma {:induction false} GroupPrefix<Row>(group: Group<Row>, j: nat)
    requires j <= |group|
    ensures GroupRows(group[..j]) <= GroupRows(group)
  {
    if j == 0 {
      assert group[..0] == [];
    } else {
      GroupPrefix(group[1..], j - 1);
      assert group[..j][1..] == group[1..][..j - 1] && group[..j][0] == group[0];
    }
  }

  // ---------------------------------------------------------------- all pages

  function Page<Row>(table: seq<Row>, page: nat, pageSize: nat): seq<Row>
    requires page >= 1
  {
    Rows(table, (page - 1) * pageSize, (page - 1) * pageSize + pageSize)
  }

  /** The first `count` pages, one after the other. */
  function Pages<Row>(table: seq<Row>, count: nat, pageSize: nat): seq<Row> {
    if count == 0 then [] else Pages(table, count - 1, pageSize) + Page(table, count, pageSize)
  }

  lemma NextPage<Row>(table: seq<Row>, read: nat, pageSize: nat)
    ensures table[..Min(read, |table|)] + Rows(table, read, read + pageSize) == table[..Min(read + pageSize, |table|)]
  {
  }

  lemma {:induction false} PagesAreAPrefix<Row>(table: seq<Row>, count: nat, pageSize: nat)
    ensures count * pageSize >= 0 && Pages(table, count, pageSize) == table[..Min(count * pageSize, |table|)]
  {
    hide Rows;
    if count > 0 {
      PagesAreAPrefix(table, count - 1, pageSize);
      assert (count - 1) * pageSize + pageSize == count * pageSize;
      NextPage(table, (count - 1) * pageSize, pageSize);
    }
  }

  /** Pages 1, 2, ... concatenate to the whole file, with nothing twice and nothing lost. */
  lemma PagesCoverTheFile<Row>(groups: seq<Group<Row>>, count: nat, pageSize: nat)
    requires count * pageSize >= |FileRows(groups)|
    ensures Pages(FileRows(groups), count, pageSize) == FileRows(groups)
  {
    PagesAreAPrefix(FileRows(groups), count, pageSize);
  }
}
