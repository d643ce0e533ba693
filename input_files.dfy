/**
 * The input-file list of the "Input files" tab: one record per raw data file,
 * `{raw_path, reference, group?, ident_path?}`, the row selection of the table,
 * and the list operations behind the Add / Remove / Edit buttons.
 *
 * Records are objects: the source keeps them as dictionaries that several lists
 * share, and the edit dialog changes them in place.
 */
module InputFiles {
  import opened Wrappers
  import opened Paths

  /** The value held by one record at one moment (what the project file stores). */
  datatype Entry = Entry(rawPath: string, reference: bool, group: Option<string>, identPath: Option<string>)

  class InputFile {
    var rawPath: string
    var reference: bool
    var group: Option<string>
    var identPath: Option<string>

    /** `{'raw_path': path, 'reference': False}`, the record "Add" creates. */
    constructor (path: string)
      ensures Value() == Entry(path, false, None, None)
    {
      rawPath, reference, group, identPath := path, false, None, None;
    }

    /** A record read back from a project file. */
    constructor FromEntry(e: Entry)
      ensures Value() == e
    {
      rawPath, reference, group, identPath := e.rawPath, e.reference, e.group, e.identPath;
    }

    function Value(): Entry
      reads this
    {
      Entry(rawPath, reference, group, identPath)
    }
  }

  /** The values of a list of records, position by position. */
  function Snapshot(fs: seq<InputFile>): (es: seq<Entry>)
    reads fs
    ensures |es| == |fs|
    ensures forall i :: 0 <= i < |fs| ==> es[i] == fs[i].Value()
  {
    if fs == [] then [] else [fs[0].Value()] + Snapshot(fs[1..])
  }

  /** `[file['raw_path'] for file in files]` */
  function RawPaths(fs: seq<InputFile>): (ps: seq<string>)
    reads fs
    ensures |ps| == |fs|
    ensures forall i :: 0 <= i < |fs| ==> ps[i] == fs[i].rawPath
  {
    if fs == [] then [] else [fs[0].rawPath] + RawPaths(fs[1..])
  }

  // ----- Add -----

  /**
   * The picked paths that "Add" appends, in pick order: those not already a
   * raw path of the list as it was before the call. A path picked twice in one
   * call is appended twice, since membership is not re-checked as the list grows.
   */
  function Added(current: seq<string>, picked: seq<string>): (r: seq<string>)
    ensures |r| <= |picked|
  {
    if picked == [] then []
    else
      var last := picked[|picked| - 1];
      Added(current, picked[..|picked| - 1]) + (if last in current then [] else [last])
  }

  /** Exactly the picked paths that the list did not already hold are appended. */
  lemma {:induction false} AddedMembers(current: seq<string>, picked: seq<string>)
    ensures forall p :: p in Added(current, picked) <==> p in picked && p !in current
  {
    if picked != [] {
      var init := picked[..|picked| - 1];
      AddedMembers(current, init);
      assert forall p :: p in picked <==> p in init || p == picked[|picked| - 1];
    }
  }

  /** Picking the same files a second time appends nothing. */
  lemma AddTwiceAddsNothing(current: seq<string>, picked: seq<string>)
    ensures Added(current + Added(current, picked), picked) == []
  {
    AddedMembers(current, picked);
    AddedNothingWhenPresent(current + Added(current, picked), picked);
  }

  lemma {:induction false} AddedNothingWhenPresent(current: seq<string>, picked: seq<string>)
    requires forall p :: p in picked ==> p in current
    ensures Added(current, picked) == []
  {
    if picked != [] {
      AddedNothingWhenPresent(current, picked[..|picked| - 1]);
    }
  }

  /** `rs` are the records "Add" creates for `paths`, position by position. */
  predicate NewRecords(rs: seq<InputFile>, paths: seq<string>)
    reads rs
  {
    |rs| == |paths| && forall k :: 0 <= k < |rs| ==> rs[k].Value() == Entry(paths[k], false, None, None)
  }

  /**
   * The loop of `add_file`: append a fresh `{'raw_path': p, 'reference': False}`
   * for each picked path that the list did not hold before the call.
   */
  method AppendNew(files: seq<InputFile>, picked: seq<string>) returns (r: seq<InputFile>)
    requires Distinct(files)
    ensures |r| >= |files| && r[..|files|] == files && Distinct(r)
    ensures NewRecords(r[|files|..], Added(RawPaths(files), picked))
    ensures fresh(r[|files|..])
  {
    var current := RawPaths(files);
    var made: seq<InputFile> := [];
    for i := 0 to |picked|
      invariant NewRecords(made, Added(current, picked[..i]))
      invariant fresh(made)
      invariant Distinct(made)
    {
      assert picked[..i + 1][..i] == picked[..i];
      if picked[i] !in current {
        var record := new InputFile(picked[i]);
        NewRecordsSnoc(made, Added(current, picked[..i]), record, picked[i]);
        DistinctSnoc(made, record);
        made := made + [record];
      }
    }
    assert picked[..|picked|] == picked;
    r := files + made;
    assert r[|files|..] == made;
    DistinctConcat(files, made);
  }

  /** Records read back from a project file: one new record per stored entry, holding that entry. */
  method FromEntries(es: seq<Entry>) returns (rs: seq<InputFile>)
    ensures |rs| == |es| && forall k :: 0 <= k < |rs| ==> rs[k].Value() == es[k]
    ensures fresh(rs) && Distinct(rs)
  {
    rs := [];
    for i := 0 to |es|
      invariant |rs| == i && forall k :: 0 <= k < i ==> rs[k].Value() == es[k]
      invariant fresh(rs) && Distinct(rs)
    {
      var record := new InputFile.FromEntry(es[i]);
      DistinctSnoc(rs, record);
      rs := rs + [record];
    }
  }

  lemma NewRecordsSnoc(rs: seq<InputFile>, paths: seq<string>, record: InputFile, path: string)
    requires NewRecords(rs, paths) && record.Value() == Entry(path, false, None, None)
    ensures NewRecords(rs + [record], paths + [path])
  {
  }

  lemma DistinctSnoc<T>(xs: seq<T>, x: T)
    requires Distinct(xs) && x !in xs
    ensures Distinct(xs + [x])
  {
  }

  /** Two lists without duplicates and without a common element concatenate to one without duplicates. */
  lemma DistinctConcat<T>(xs: seq<T>, ys: seq<T>)
    requires Distinct(xs) && Distinct(ys)
    requires forall i, j :: 0 <= i < |xs| && 0 <= j < |ys| ==> xs[i] != ys[j]
    ensures Distinct(xs + ys)
  {
  }

  // ----- Selection -----

  /** One selected block of table rows, from `topRow()` to `bottomRow()` inclusive. */
  datatype RowRange = RowRange(top: int, bottom: int)

  /** `list(range(lo, hi + 1))` */
  function Span(lo: int, hi: int): (r: seq<int>)
    ensures |r| == if lo <= hi then hi - lo + 1 else 0
    ensures forall k :: 0 <= k < |r| ==> r[k] == lo + k
    decreases hi - lo
  {
    if hi < lo then [] else Span(lo, hi - 1) + [hi]
  }

  /** The row indexes of all selected ranges, range after range. */
  function Expand(ranges: seq<RowRange>): seq<int> {
    if ranges == [] then []
    else
      var last := ranges[|ranges| - 1];
      Expand(ranges[..|ranges| - 1]) + Span(last.top, last.bottom)
  }

  predicate Covers(ranges: seq<RowRange>, i: int) {
    exists j :: 0 <= j < |ranges| && ranges[j].top <= i <= ranges[j].bottom
  }

  /** A row index is produced exactly when some selected range covers it. */
  lemma {:induction false} ExpandMembers(ranges: seq<RowRange>, i: int)
    ensures i in Expand(ranges) <==> Covers(ranges, i)
  {
    if ranges != [] {
      var init := ranges[..|ranges| - 1];
      var last := ranges[|ranges| - 1];
      ExpandMembers(init, i);
      var sp := Span(last.top, last.bottom);
      assert i in sp <==> last.top <= i <= last.bottom by {
        if last.top <= i <= last.bottom {
          assert sp[i - last.top] == i;
        }
      }
      if Covers(init, i) {
        var j :| 0 <= j < |init| && init[j].top <= i <= init[j].bottom;
        assert ranges[j] == init[j];
      }
      if Covers(ranges, i) && !(last.top <= i <= last.bottom) {
        var j :| 0 <= j < |ranges| && ranges[j].top <= i <= ranges[j].bottom;
        assert j < |init| && init[j] == ranges[j];
      }
    }
  }

  /** `find_selected_files`: the row indexes of every selected range, in range order. */
  method ExpandRanges(ranges: seq<RowRange>) returns (indexes: seq<int>)
    ensures indexes == Expand(ranges)
  {
    indexes := [];
    for r := 0 to |ranges|
      invariant indexes == Expand(ranges[..r])
    {
      var sel := ranges[r];
      ghost var before := indexes;
      var i := sel.top;
      while i < sel.bottom + 1
        invariant sel.top <= i
        invariant sel.top <= sel.bottom ==> i <= sel.bottom + 1
        invariant sel.bottom < sel.top ==> i == sel.top
        invariant indexes == before + Span(sel.top, i - 1)
        decreases sel.bottom + 1 - i
      {
        indexes := indexes + [i];
        i := i + 1;
      }
      assert ranges[..r + 1][..r] == ranges[..r];
      assert Span(sel.top, i - 1) == Span(sel.top, sel.bottom);
    }
    assert ranges[..|ranges|] == ranges;
  }

  // ----- Remove -----

  /** How many of the positions `0 .. n-1` are selected. */
  function SelectedCount(indexes: seq<int>, n: nat): (c: nat)
    ensures c <= n
  {
    if n == 0 then 0 else SelectedCount(indexes, n - 1) + (if n - 1 in indexes then 1 else 0)
  }

  /** The elements among the first `n` whose position is not selected, in order. */
  function Kept<T>(xs: seq<T>, indexes: seq<int>, n: nat): (r: seq<T>)
    requires n <= |xs|
    ensures |r| == n - SelectedCount(indexes, n)
  {
    if n == 0 then []
    else Kept(xs, indexes, n - 1) + (if n - 1 in indexes then [] else [xs[n - 1]])
  }

  /** What "Remove" leaves: the entries whose position is not selected, in their original order. */
  function Unselected<T>(xs: seq<T>, indexes: seq<int>): seq<T> {
    Kept(xs, indexes, |xs|)
  }

  /** The selected count is the number of distinct selected positions, however often a row is listed. */
  lemma {:induction false} SelectedCountIsCardinality(indexes: seq<int>, n: nat)
    ensures SelectedCount(indexes, n) == |set i | 0 <= i < n && i in indexes|
  {
    if n > 0 {
      SelectedCountIsCardinality(indexes, n - 1);
      var below := set i | 0 <= i < n - 1 && i in indexes;
      var upto := set i | 0 <= i < n && i in indexes;
      if n - 1 in indexes {
        assert upto == below + {n - 1};
      } else {
        assert upto == below;
      }
    }
  }

  lemma {:induction false} KeptMembers<T>(xs: seq<T>, indexes: seq<int>, n: nat, x: T)
    requires n <= |xs|
    ensures x in Kept(xs, indexes, n) <==> exists i :: 0 <= i < n && i !in indexes && xs[i] == x
  {
    if n > 0 {
      KeptMembers(xs, indexes, n - 1, x);
      if exists i :: 0 <= i < n && i !in indexes && xs[i] == x {
        var i :| 0 <= i < n && i !in indexes && xs[i] == x;
        if i < n - 1 {
          assert exists i :: 0 <= i < n - 1 && i !in indexes && xs[i] == x;
        }
      }
    }
  }

  /** An element survives removal exactly when it sits at some unselected position. */
  lemma UnselectedMembers<T>(xs: seq<T>, indexes: seq<int>, x: T)
    ensures x in Unselected(xs, indexes) <==> exists i :: 0 <= i < |xs| && i !in indexes && xs[i] == x
  {
    KeptMembers(xs, indexes, |xs|, x);
  }

  lemma {:induction false} KeptAllWhenNoneSelected<T>(xs: seq<T>, indexes: seq<int>, n: nat)
    requires n <= |xs|
    requires forall i :: 0 <= i < n ==> i !in indexes
    ensures Kept(xs, indexes, n) == xs[..n]
  {
    if n > 0 {
      KeptAllWhenNoneSelected(xs, indexes, n - 1);
      assert xs[..n] == xs[..n - 1] + [xs[n - 1]];
    }
  }

  /** Removing with no selected row in range changes nothing. */
  lemma UnselectedNoneSelected<T>(xs: seq<T>, indexes: seq<int>)
    requires forall i :: 0 <= i < |xs| ==> i !in indexes
    ensures Unselected(xs, indexes) == xs
  {
    KeptAllWhenNoneSelected(xs, indexes, |xs|);
    assert xs[..|xs|] == xs;
  }

  /** Three rows, row 0 selected: two rows remain, the second and the third. */
  lemma RemoveFirstOfThree<T>(a: T, b: T, c: T)
    ensures Unselected([a, b, c], [0]) == [b, c]
  {
    var xs := [a, b, c];
    assert Kept(xs, [0], 1) == [];
    assert Kept(xs, [0], 2) == [b];
  }

  /** The loop of `remove_file`: keep the entries whose position is not selected. */
  method DropSelected<T>(xs: seq<T>, indexes: seq<int>) returns (r: seq<T>)
    ensures r == Unselected(xs, indexes)
  {
    r := [];
    for i := 0 to |xs|
      invariant r == Kept(xs, indexes, i)
    {
      if i !in indexes {
        r := r + [xs[i]];
      }
    }
  }

  // ----- Identification pairing -----

  /** Position of the first element equal to `x`; `|xs|` when there is none. */
  function FirstEqual<T(==)>(x: T, xs: seq<T>): (k: nat)
    ensures k <= |xs|
    ensures k < |xs| ==> xs[k] == x
    ensures forall j :: 0 <= j < k ==> xs[j] != x
  {
    if xs == [] then 0
    else if xs[0] == x then 0
    else 1 + FirstEqual(x, xs[1..])
  }

  /** `os.path.splitext(os.path.basename(c))[0]` for each candidate. */
  function Stems(candidates: seq<string>): (ss: seq<string>)
    ensures |ss| == |candidates|
    ensures forall i :: 0 <= i < |candidates| ==> ss[i] == Stem(candidates[i])
  {
    seq(|candidates|, i requires 0 <= i < |candidates| => Stem(candidates[i]))
  }

  /** Whether the edit dialog pairs without looking at names: one selected row and one chosen file. */
  predicate PairsDirectly(selectedCount: int, candidates: seq<string>) {
    selectedCount == 1 && |candidates| == 1
  }

  /** Some candidate has the raw file's stem. */
  predicate HasStem(rawPath: string, candidates: seq<string>) {
    exists j :: 0 <= j < |candidates| && Stem(candidates[j]) == Stem(rawPath)
  }

  /**
   * What `multiple_id_files` leaves in `ident_path`: the first candidate whose
   * stem is the raw file's stem, or the previous value when none has it.
   */
  function StemMatch(rawPath: string, current: Option<string>, candidates: seq<string>): (r: Option<string>)
    ensures HasStem(rawPath, candidates) ==>
      exists k :: 0 <= k < |candidates| && r == Some(candidates[k]) && Stem(candidates[k]) == Stem(rawPath) &&
        forall j :: 0 <= j < k ==> Stem(candidates[j]) != Stem(rawPath)
    ensures !HasStem(rawPath, candidates) ==> r == current
  {
    var k := FirstEqual(Stem(rawPath), Stems(candidates));
    if k < |candidates| then Some(candidates[k]) else current
  }

  /**
   * The identification path an edited record ends with: the only chosen file when
   * one row and one file are chosen; otherwise the first candidate with the raw
   * file's stem, or the record's previous value when no candidate has it.
   */
  function Pairing(rawPath: string, current: Option<string>, candidates: seq<string>, selectedCount: int): (r: Option<string>)
    ensures PairsDirectly(selectedCount, candidates) ==> r == Some(candidates[0])
    ensures !PairsDirectly(selectedCount, candidates) && HasStem(rawPath, candidates) ==>
      exists k :: 0 <= k < |candidates| && r == Some(candidates[k]) && Stem(candidates[k]) == Stem(rawPath) &&
        forall j :: 0 <= j < k ==> Stem(candidates[j]) != Stem(rawPath)
    ensures !PairsDirectly(selectedCount, candidates) && !HasStem(rawPath, candidates) ==> r == current
  {
    if PairsDirectly(selectedCount, candidates) then Some(candidates[0])
    else StemMatch(rawPath, current, candidates)
  }

  /** Editing the same record twice with the same dialog gives the same result as editing it once. */
  lemma PairingIdempotent(rawPath: string, current: Option<string>, candidates: seq<string>, selectedCount: int)
    ensures Pairing(rawPath, Pairing(rawPath, current, candidates, selectedCount), candidates, selectedCount)
         == Pairing(rawPath, current, candidates, selectedCount)
  {
  }

  // ----- Edit -----

  /** No record appears twice in the list. */
  predicate Distinct<T(==)>(xs: seq<T>) {
    forall i, j :: 0 <= i < j < |xs| ==> xs[i] != xs[j]
  }

  /** Removing rows keeps the remaining records distinct. */
  lemma {:induction false} KeptDistinct<T>(xs: seq<T>, indexes: seq<int>, n: nat)
    requires n <= |xs| && Distinct(xs)
    ensures Distinct(Kept(xs, indexes, n))
  {
    if n > 0 {
      KeptDistinct(xs, indexes, n - 1);
      if n - 1 !in indexes {
        var before := Kept(xs, indexes, n - 1);
        KeptMembers(xs, indexes, n - 1, xs[n - 1]);
        assert xs[n - 1] !in before;
        assert Kept(xs, indexes, n) == before + [xs[n - 1]];
      }
    }
  }

  /** A record after an edit with `group` and the chosen identification files. */
  function Edited(e: Entry, group: string, candidates: seq<string>, selectedCount: int): (r: Entry)
    ensures r.rawPath == e.rawPath && r.reference == e.reference && r.group == Some(group)
    ensures r.identPath == Pairing(e.rawPath, e.identPath, candidates, selectedCount)
  {
    e.(group := Some(group), identPath := Pairing(e.rawPath, e.identPath, candidates, selectedCount))
  }

  /** `single_id_file`: the record's identification file is `path`, whatever its name. */
  method PairSingle(record: InputFile, path: string)
    modifies record
    ensures record.Value() == old(record.Value()).(identPath := Some(path))
  {
    record.identPath := Some(path);
  }

  /** `multiple_id_files`: the first candidate with the raw file's stem becomes the identification file; the search stops there. */
  method PairByStem(record: InputFile, candidates: seq<string>)
    modifies record
    ensures record.Value() == old(record.Value()).(identPath := StemMatch(old(record.rawPath), old(record.identPath), candidates))
  {
    var stem := Stem(record.rawPath);
    ghost var stems := Stems(candidates);
    var k := 0;
    while k < |candidates| && Stem(candidates[k]) != stem
      invariant 0 <= k <= |candidates|
      invariant forall j :: 0 <= j < k ==> stems[j] != stem
    {
      k := k + 1;
    }
    assert FirstEqual(stem, stems) == k;
    if k < |candidates| {
      record.identPath := Some(candidates[k]);
    }
  }

  /**
   * The loop of `examine_edit_files`: every selected record gets the group and an
   * identification file, in place; the list returned holds the same records.
   */
  method EditRecords(records: seq<InputFile>, indexes: seq<int>, group: string, candidates: seq<string>) returns (r: seq<InputFile>)
    requires Distinct(records)
    modifies records
    ensures r == records
    ensures forall k :: 0 <= k < |records| ==>
      records[k].Value() == if k in indexes then Edited(old(records[k].Value()), group, candidates, |indexes|) else old(records[k].Value())
  {
    r := [];
    for i := 0 to |records|
      invariant r == records[..i]
      invariant forall k :: 0 <= k < i ==>
        records[k].Value() == if k in indexes then Edited(old(records[k].Value()), group, candidates, |indexes|) else old(records[k].Value())
      invariant forall k :: i <= k < |records| ==> records[k].Value() == old(records[k].Value())
    {
      var record := records[i];
      if i in indexes {
        record.group := Some(group);
        if |indexes| == 1 && |candidates| == 1 {
          PairSingle(record, candidates[0]);
        } else {
          PairByStem(record, candidates);
        }
      }
      r := r + [record];
    }
  }
}
