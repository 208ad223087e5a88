/** Turning CSV rows into header-keyed records (src/data/processor.py). */
module Processor {

  /** The rows of `data` whose length matches the header row, in order. */
  function KeptRows<V>(headers: seq<string>, data: seq<seq<V>>): (kept: seq<seq<V>>)
    ensures |kept| <= |data|
    ensures forall row :: row in kept ==> |row| == |headers|
  {
    if data == [] then []
    else
      var last := data[|data| - 1];
      KeptRows(headers, data[..|data| - 1]) + (if |last| == |headers| then [last] else [])
  }

  /** How many rows of `data` have the wrong length. */
  function SkippedCount<V>(headers: seq<string>, data: seq<seq<V>>): nat
  {
    if data == [] then 0
    else
      var last := data[|data| - 1];
      SkippedCount(headers, data[..|data| - 1]) + (if |last| == |headers| then 0 else 1)
  }

  /** The record built from the first `n` columns: header `i` maps to
      `row[i]`, a later duplicate header overwriting an earlier one. */
  function RecordPrefix<V>(headers: seq<string>, row: seq<V>, n: nat): map<string, V>
    requires n <= |headers| <= |row|
  {
    if n == 0 then map[] else RecordPrefix(headers, row, n - 1)[headers[n - 1] := row[n - 1]]
  }

  function RecordOf<V>(headers: seq<string>, row: seq<V>): map<string, V>
    requires |headers| <= |row|
  {
    RecordPrefix(headers, row, |headers|)
  }

  /** The records of all kept rows. */
  function Records<V>(headers: seq<string>, rows: seq<seq<V>>): seq<map<string, V>>
    requires forall row :: row in rows ==> |row| == |headers|
  {
    seq(|rows|, i requires 0 <= i < |rows| => RecordOf(headers, rows[i]))
  }

  /** `process_data`: every row of the right length becomes a record, in order;
      the others are counted as skipped (the source prints the count). */
  method ProcessData<V>(headers: seq<string>, data: seq<seq<V>>)
    returns (processed: seq<map<string, V>>, skipped: nat)
    ensures processed == Records(headers, KeptRows(headers, data))
    ensures skipped == SkippedCount(headers, data)
  {
    processed := [];
    skipped := 0;
    var rowNum := 0;
    while rowNum < |data|
      invariant 0 <= rowNum <= |data|
      invariant processed == Records(headers, KeptRows(headers, data[..rowNum]))
      invariant skipped == SkippedCount(headers, data[..rowNum])
    {
      var row := data[rowNum];
      if |row| != |headers| {
        SkipStep(headers, data, rowNum);
        skipped := skipped + 1;
      } else {
        KeepStep(headers, data, rowNum);
        var record := BuildRecord(headers, row);
        processed := processed + [record];
      }
      rowNum := rowNum + 1;
    }
    assert data[..rowNum] == data;
  }

  /** One more row: it is kept or counted as skipped, by its length. */
  lemma KeptStep<V>(headers: seq<string>, data: seq<seq<V>>, n: nat)
    requires n < |data|
    ensures KeptRows(headers, data[..n + 1])
      == KeptRows(headers, data[..n]) + (if |data[n]| == |headers| then [data[n]] else [])
    ensures SkippedCount(headers, data[..n + 1])
      == SkippedCount(headers, data[..n]) + (if |data[n]| == |headers| then 0 else 1)
  {
    assert data[..n + 1][..n] == data[..n];
  }

  /** A row of the wrong length leaves the records as they are and is skipped. */
  lemma SkipStep<V>(headers: seq<string>, data: seq<seq<V>>, n: nat)
    requires n < |data| && |data[n]| != |headers|
    ensures Records(headers, KeptRows(headers, data[..n + 1])) == Records(headers, KeptRows(headers, data[..n]))
    ensures SkippedCount(headers, data[..n + 1]) == SkippedCount(headers, data[..n]) + 1
  {
    KeptStep(headers, data, n);
    var kept := KeptRows(headers, data[..n]);
    assert kept + [] == kept;
  }

  /** A row of the right length adds its record at the end. */
  lemma KeepStep<V>(headers: seq<string>, data: seq<seq<V>>, n: nat)
    requires n < |data| && |data[n]| == |headers|
    ensures Records(headers, KeptRows(headers, data[..n + 1]))
      == Records(headers, KeptRows(headers, data[..n])) + [RecordOf(headers, data[n])]
    ensures SkippedCount(headers, data[..n + 1]) == SkippedCount(headers, data[..n])
  {
    KeptStep(headers, data, n);
    RecordsAppend(headers, KeptRows(headers, data[..n]), data[n]);
  }

  lemma RecordsAppend<V>(headers: seq<string>, rows: seq<seq<V>>, row: seq<V>)
    requires forall r :: r in rows ==> |r| == |headers|
    requires |row| == |headers|
    ensures Records(headers, rows + [row]) == Records(headers, rows) + [RecordOf(headers, row)]
  {
    var r, r' := Records(headers, rows + [row]), Records(headers, rows) + [RecordOf(headers, row)];
    assert |r| == |r'|;
    forall i | 0 <= i < |r| ensures r[i] == r'[i] {
      if i < |rows| {
        assert (rows + [row])[i] == rows[i];
      }
    }
  }

  /** The inner loop of `process_data`: fill the record header by header. */
  method BuildRecord<V>(headers: seq<string>, row: seq<V>) returns (record: map<string, V>)
    requires |row| == |headers|
    ensures record == RecordOf(headers, row)
  {
    record := map[];
    var i := 0;
    while i < |headers|
      invariant 0 <= i <= |headers|
      invariant record == RecordPrefix(headers, row, i)
    {
      record := record[headers[i] := row[i]];
      i := i + 1;
    }
  }

  /** Every row is either kept or skipped. */
  lemma {:induction false} KeptPlusSkipped<V>(headers: seq<string>, data: seq<seq<V>>)
    ensures |KeptRows(headers, data)| + SkippedCount(headers, data) == |data|
  {
    if data != [] {
      KeptPlusSkipped(headers, data[..|data| - 1]);
    }
  }

  /** A row is kept exactly when it occurs in `data` with the header's length. */
  lemma {:induction false} KeptRowsExactly<V>(headers: seq<string>, data: seq<seq<V>>, row: seq<V>)
    ensures row in KeptRows(headers, data) <==> row in data && |row| == |headers|
  {
    if data != [] {
      var init := data[..|data| - 1];
      KeptRowsExactly(headers, init, row);
      assert data == init + [data[|data| - 1]];
    }
  }

  /** Keeping preserves the original order: rows taken from two concatenated
      batches are those of the first batch followed by those of the second. */
  lemma {:induction false} KeptRowsAppend<V>(headers: seq<string>, a: seq<seq<V>>, b: seq<seq<V>>)
    ensures KeptRows(headers, a + b) == KeptRows(headers, a) + KeptRows(headers, b)
  {
    if b == [] {
      assert a + b == a;
    } else {
      var b' := b[..|b| - 1];
      assert (a + b)[..|a + b| - 1] == a + b';
      KeptRowsAppend(headers, a, b');
    }
  }

  /** A record's keys are exactly the headers. */
  lemma {:induction false} RecordKeys<V>(headers: seq<string>, row: seq<V>, n: nat)
    requires n <= |headers| <= |row|
    ensures RecordPrefix(headers, row, n).Keys == set i | 0 <= i < n :: headers[i]
  {
    if n > 0 {
      RecordKeys(headers, row, n - 1);
    }
  }

  /** Header `h` maps to the column of its last occurrence among the first `n`. */
  lemma {:induction false} RecordValueLastWins<V>(headers: seq<string>, row: seq<V>, n: nat, i: nat)
    requires n <= |headers| <= |row|
    requires i < n
    requires forall j :: i < j < n ==> headers[j] != headers[i]
    ensures headers[i] in RecordPrefix(headers, row, n)
    ensures RecordPrefix(headers, row, n)[headers[i]] == row[i]
  {
    if i < n - 1 {
      RecordValueLastWins(headers, row, n - 1, i);
    }
  }

  /** Every processed record has exactly the headers as keys, and each header
      maps to the value of the last column carrying it. */
  lemma {:induction false} ProcessedRecordShape<V>(headers: seq<string>, row: seq<V>, i: nat)
    requires |row| == |headers|
    requires i < |headers|
    requires forall j :: i < j < |headers| ==> headers[j] != headers[i]
    ensures RecordOf(headers, row).Keys == set h | h in headers
    ensures RecordOf(headers, row)[headers[i]] == row[i]
  {
    RecordKeys(headers, row, |headers|);
    RecordValueLastWins(headers, row, |headers|, i);
    assert (set j | 0 <= j < |headers| :: headers[j]) == set h | h in headers by {
      forall h | h in headers ensures h in set j | 0 <= j < |headers| :: headers[j] {
        var j :| 0 <= j < |headers| && headers[j] == h;
      }
    }
  }
}
