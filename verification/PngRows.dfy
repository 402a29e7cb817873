// Row unfiltering of the vision runtime's PNG decoder, against the filters of section 9 of the W3C PNG
// Specification (section 6 of RFC 2083).
module PngRows {
  import opened Results
  import opened Sequences

  const PAETH_FILTER: Byte := 4

  function Abs(n: int): nat {
    if n < 0 then -n else n
  }

  // ---- Predictors ----

  function Paeth(left: Byte, up: Byte, upperLeft: Byte): Byte {
    var estimate := left + up - upperLeft;
    var leftDistance, upDistance, upperLeftDistance := Abs(estimate - left), Abs(estimate - up), Abs(estimate - upperLeft);
    if leftDistance <= upDistance && leftDistance <= upperLeftDistance then left
    else if upDistance <= upperLeftDistance then up
    else upperLeft
  }

  // The neighbours in the standard's tie-breaking order: left, above, upper left.
  function Neighbour(left: Byte, up: Byte, upperLeft: Byte, k: nat): Byte {
    if k == 0 then left else if k == 1 then up else upperLeft
  }

  function Distance(left: Byte, up: Byte, upperLeft: Byte, k: nat): nat {
    Abs(left + up - upperLeft - Neighbour(left, up, upperLeft, k))
  }

  // The Paeth predictor is the first neighbour, in the standard order, nearest to the linear estimate.
  lemma PaethIsFirstNearest(left: Byte, up: Byte, upperLeft: Byte) returns (k: nat)
    ensures k < 3 && Paeth(left, up, upperLeft) == Neighbour(left, up, upperLeft, k)
    ensures forall j: nat :: j < 3 ==> Distance(left, up, upperLeft, k) <= Distance(left, up, upperLeft, j)
    ensures forall j: nat :: j < k ==> Distance(left, up, upperLeft, k) < Distance(left, up, upperLeft, j)
  {
    var d0, d1, d2 := Distance(left, up, upperLeft, 0), Distance(left, up, upperLeft, 1), Distance(left, up, upperLeft, 2);
    k := if d0 <= d1 && d0 <= d2 then 0 else if d1 <= d2 then 1 else 2;
  }

  function Predictor(filter: Byte, left: Byte, up: Byte, upperLeft: Byte): Byte {
    if filter == 1 then left
    else if filter == 2 then up
    else if filter == 3 then (left + up) / 2
    else if filter == PAETH_FILTER then Paeth(left, up, upperLeft)
    else 0
  }

  function At(row: seq<Byte>, i: int): Byte {
    if 0 <= i < |row| then row[i] else 0
  }

  function ZeroRow(stride: nat): seq<Byte> {
    seq(stride, i => 0)
  }

  // ---- One row ----

  // What the standard's encoder stores: each byte minus its prediction from unfiltered bytes.
  function FilterRow(row: seq<Byte>, prior: seq<Byte>, filter: Byte, bpp: nat): seq<Byte>
    requires bpp > 0
  {
    seq(|row|, i requires 0 <= i < |row| =>
      (row[i] - Predictor(filter, At(row, i - bpp), At(prior, i), At(prior, i - bpp))) % 256)
  }

  predicate StandsFor(stored: Byte, predicted: int, value: Byte) {
    value == (stored + predicted) % 256
  }

  lemma StoredStandsFor(row: seq<Byte>, prior: seq<Byte>, filter: Byte, bpp: nat, i: nat)
    requires bpp > 0 && i < |row|
    ensures StandsFor(FilterRow(row, prior, filter, bpp)[i],
                      Predictor(filter, At(row, i - bpp), At(prior, i), At(prior, i - bpp)), row[i])
  {
    AddBack(row[i], Predictor(filter, At(row, i - bpp), At(prior, i), At(prior, i - bpp)));
  }

  // The standard's five filters, byte by byte: what is stored and what it stands for differ, modulo 256, by
  // nothing, the byte to the left, the byte above, half their sum, or the Paeth predictor of the three.
  lemma FilteredByStandard(row: seq<Byte>, prior: seq<Byte>, filter: Byte, bpp: nat, i: nat)
    requires bpp > 0 && i < |row| && |prior| == |row|
    ensures var left: int, up: int := if i >= bpp then row[i - bpp] else 0, prior[i];
      var stored := FilterRow(row, prior, filter, bpp)[i];
      && (filter == 0 ==> stored == row[i])
      && (filter == 1 ==> StandsFor(stored, left, row[i]))
      && (filter == 2 ==> StandsFor(stored, up, row[i]))
      && (filter == 3 ==> StandsFor(stored, (left + up) / 2, row[i]))
    ensures filter == 4 ==>
      StandsFor(FilterRow(row, prior, filter, bpp)[i],
                Paeth(if i >= bpp then row[i - bpp] else 0, prior[i], if i >= bpp then prior[i - bpp] else 0), row[i])
  {
    StoredStandsFor(row, prior, filter, bpp, i);
  }

  // Above the first row stand zeros: it is predicted from the left alone.
  lemma FirstRowByStandard(row: seq<Byte>, filter: Byte, bpp: nat, i: nat)
    requires bpp > 0 && i < |row| && filter <= 4
    ensures var left: int := if i >= bpp then row[i - bpp] else 0;
      StandsFor(FilterRow(row, ZeroRow(|row|), filter, bpp)[i],
                if filter == 0 || filter == 2 then 0 else if filter == 3 then left / 2 else left, row[i])
  {
    FilteredByStandard(row, ZeroRow(|row|), filter, bpp, i);
  }

  // The first n bytes recovered, each predicted from bytes recovered before it.
  function Recovered(stored: seq<Byte>, prior: seq<Byte>, filter: Byte, bpp: nat, n: nat): (row: seq<Byte>)
    requires bpp > 0 && n <= |stored|
    ensures |row| == n
  {
    if n == 0 then []
    else
      var before := Recovered(stored, prior, filter, bpp, n - 1);
      var i := n - 1;
      before + [(stored[i] + Predictor(filter, At(before, i - bpp), At(prior, i), At(prior, i - bpp))) % 256]
  }

  function UnfilterRow(stored: seq<Byte>, prior: seq<Byte>, filter: Byte, bpp: nat): seq<Byte>
    requires bpp > 0
  {
    Recovered(stored, prior, filter, bpp, |stored|)
  }

  lemma {:induction false} RecoveredPrefix(stored: seq<Byte>, prior: seq<Byte>, filter: Byte, bpp: nat, n: nat, m: nat)
    requires bpp > 0 && n <= m <= |stored|
    ensures Recovered(stored, prior, filter, bpp, m)[..n] == Recovered(stored, prior, filter, bpp, n)
  {
    if n < m {
      RecoveredPrefix(stored, prior, filter, bpp, n, m - 1);
      var before := Recovered(stored, prior, filter, bpp, m - 1);
      assert Recovered(stored, prior, filter, bpp, m)[..n] == before[..n];
    }
  }

  lemma AddBack(x: Byte, p: Byte)
    ensures ((x - p) % 256 + p) % 256 == x && ((x + p) % 256 - p) % 256 == x
  {
  }

  // Unfiltering undoes filtering, byte by byte, for every filter and pixel size.
  lemma {:induction false} UnfilterUndoesFilter(row: seq<Byte>, prior: seq<Byte>, filter: Byte, bpp: nat, n: nat)
    requires bpp > 0 && n <= |row|
    ensures Recovered(FilterRow(row, prior, filter, bpp), prior, filter, bpp, n) == row[..n]
  {
    if n > 0 {
      UnfilterUndoesFilter(row, prior, filter, bpp, n - 1);
      var i := n - 1;
      var p := Predictor(filter, At(row, i - bpp), At(prior, i), At(prior, i - bpp));
      assert At(row[..i], i - bpp) == At(row, i - bpp);
      AddBack(row[i], p);
      assert row[..n] == row[..i] + [row[i]];
    }
  }

  // And filtering undoes unfiltering, so no stored row is lost or confused with another.
  lemma FilterUndoesUnfilter(stored: seq<Byte>, prior: seq<Byte>, filter: Byte, bpp: nat)
    requires bpp > 0
    ensures FilterRow(UnfilterRow(stored, prior, filter, bpp), prior, filter, bpp) == stored
  {
    forall i | 0 <= i < |stored|
      ensures FilterRow(UnfilterRow(stored, prior, filter, bpp), prior, filter, bpp)[i] == stored[i]
    {
      FilterUndoesUnfilterAt(stored, prior, filter, bpp, i);
    }
  }

  lemma FilterUndoesUnfilterAt(stored: seq<Byte>, prior: seq<Byte>, filter: Byte, bpp: nat, i: nat)
    requires bpp > 0 && i < |stored|
    ensures FilterRow(UnfilterRow(stored, prior, filter, bpp), prior, filter, bpp)[i] == stored[i]
  {
    var row, before := UnfilterRow(stored, prior, filter, bpp), Recovered(stored, prior, filter, bpp, i);
    RecoveredPrefix(stored, prior, filter, bpp, i + 1, |stored|);
    RecoveredPrefix(stored, prior, filter, bpp, i, |stored|);
    assert row[i] == row[..i + 1][i];
    assert At(row, i - bpp) == At(before, i - bpp) by {
      if i - bpp >= 0 { assert row[..i][i - bpp] == row[i - bpp]; }
    }
    AddBack(stored[i], Predictor(filter, At(before, i - bpp), At(prior, i), At(prior, i - bpp)));
  }

  // ---- In place ----

  // The branches of _unfilter_row; None is its refusal of an unknown filter type.
  method ChoosePredictor(filter: Byte, left: Byte, up: Byte, upperLeft: Byte) returns (predictor: Option<Byte>)
    requires filter > 0
    ensures predictor == if filter <= PAETH_FILTER then Some(Predictor(filter, left, up, upperLeft)) else None
  {
    if filter == 1 {
      predictor := Some(left);
    } else if filter == 2 {
      predictor := Some(up);
    } else if filter == 3 {
      predictor := Some((left + up) / 2);
    } else if filter == 4 {
      predictor := Some(Paeth(left, up, upperLeft));
    } else {
      predictor := None;
    }
  }

  // _unfilter_row. An unknown filter type is refused before any byte changes; on an empty row the
  // source's loop never looks at it.
  method UnfilterRowInPlace(current: array<Byte>, prior: array<Byte>, filter: Byte, bpp: nat) returns (ok: bool)
    requires bpp > 0 && prior.Length == current.Length && prior != current
    modifies current
    ensures ok <==> filter <= PAETH_FILTER || current.Length == 0
    ensures current[..] == if ok then UnfilterRow(old(current[..]), prior[..], filter, bpp) else old(current[..])
  {
    ghost var stored, above := current[..], prior[..];
    if filter == 0 {
      FilterZero(stored, above, bpp, |stored|);
      return true;
    }
    var index := 0;
    while index < current.Length
      invariant 0 <= index <= current.Length
      invariant index > 0 ==> filter <= PAETH_FILTER
      invariant prior[..] == above
      invariant current[..index] == Recovered(stored, above, filter, bpp, index)
      invariant forall k :: index <= k < current.Length ==> current[k] == stored[k]
    {
      ghost var before := current[..index];
      var left: Byte := if index >= bpp then current[index - bpp] else 0;
      var up := prior[index];
      var upperLeft: Byte := if index >= bpp then prior[index - bpp] else 0;
      var value := current[index];
      assert left == At(before, index - bpp) && up == At(above, index) && upperLeft == At(above, index - bpp);
      var chosen := ChoosePredictor(filter, left, up, upperLeft);
      if chosen.None? {
        assert index == 0 && current[..] == stored;
        return false;
      }
      var predictor := chosen.value;
      current[index] := (value as int + predictor as int) % 256;
      assert current[..index + 1] == before + [current[index]];
      RecoveredOneMore(stored, above, filter, bpp, index);
      index := index + 1;
    }
    assert current[..] == current[..index];
    ok := true;
  }

  lemma RecoveredOneMore(stored: seq<Byte>, prior: seq<Byte>, filter: Byte, bpp: nat, n: nat)
    requires bpp > 0 && n < |stored|
    ensures var before := Recovered(stored, prior, filter, bpp, n);
            Recovered(stored, prior, filter, bpp, n + 1)
            == before + [(stored[n] as int + Predictor(filter, At(before, n - bpp), At(prior, n), At(prior, n - bpp)) as int) % 256]
  {
  }

  lemma {:induction false} FilterZero(stored: seq<Byte>, prior: seq<Byte>, bpp: nat, n: nat)
    requires bpp > 0 && n <= |stored|
    ensures Recovered(stored, prior, 0, bpp, n) == stored[..n]
  {
    if n > 0 { FilterZero(stored, prior, bpp, n - 1); }
  }

  // ---- Whole images ----

  // The scanlines an encoder emits: a filter type byte, then the filtered row.
  function EncodeRows(rows: seq<seq<Byte>>, filters: seq<Byte>, prior: seq<Byte>, bpp: nat): seq<Byte>
    requires bpp > 0 && |filters| == |rows|
    decreases rows
  {
    if rows == [] then []
    else [filters[0]] + FilterRow(rows[0], prior, filters[0], bpp) + EncodeRows(rows[1..], filters[1..], rows[0], bpp)
  }

  // height rows, each of stride bytes behind its filter type.
  function RawLength(height: nat, stride: nat): nat {
    if height == 0 then 0 else stride + 1 + RawLength(height - 1, stride)
  }

  lemma {:induction false} RawLengthIsProduct(height: nat, stride: nat)
    ensures RawLength(height, stride) == height * (stride + 1)
  {
    if height > 0 { RawLengthIsProduct(height - 1, stride); }
  }

  // The decoder's row loop over the inflated bytes; None is the refusal of an unknown filter type.
  function DecodeRows(raw: seq<Byte>, height: nat, stride: nat, prior: seq<Byte>, bpp: nat): Option<seq<seq<Byte>>>
    requires bpp > 0 && |raw| == RawLength(height, stride)
    decreases height
  {
    if height == 0 then Some([])
    else
      var filter := raw[0];
      if filter > PAETH_FILTER && stride > 0 then None
      else
        var row := UnfilterRow(raw[1..1 + stride], prior, filter, bpp);
        Prepended([row], DecodeRows(raw[1 + stride..], height - 1, stride, row, bpp))
  }

  function Prepended(first: seq<seq<Byte>>, rest: Option<seq<seq<Byte>>>): Option<seq<seq<Byte>>> {
    if rest.Some? then Some(first + rest.value) else None
  }

  lemma PrependedTwice(first: seq<seq<Byte>>, second: seq<seq<Byte>>, rest: Option<seq<seq<Byte>>>)
    ensures Prepended([], rest) == rest
    ensures Prepended(first, Prepended(second, rest)) == Prepended(first + second, rest)
  {
    if rest.Some? {
      assert [] + rest.value == rest.value;
      assert first + (second + rest.value) == first + second + rest.value;
    }
  }

  predicate Rectangular(rows: seq<seq<Byte>>, stride: nat) {
    forall i :: 0 <= i < |rows| ==> |rows[i]| == stride
  }

  predicate KnownFilters(filters: seq<Byte>) {
    forall i :: 0 <= i < |filters| ==> filters[i] <= PAETH_FILTER
  }

  // One scanline in front of the rest: both halves of the recursion at once.
  lemma DecodeOneRow(row: seq<Byte>, filter: Byte, prior: seq<Byte>, bpp: nat, height: nat, rest: seq<Byte>)
    requires bpp > 0 && filter <= PAETH_FILTER && |rest| == RawLength(height, |row|)
    ensures |FilterRow(row, prior, filter, bpp)| == |row|
    ensures DecodeRows([filter] + FilterRow(row, prior, filter, bpp) + rest, height + 1, |row|, prior, bpp)
         == Prepended([row], DecodeRows(rest, height, |row|, row, bpp))
  {
    var stored := FilterRow(row, prior, filter, bpp);
    var raw := [filter] + stored + rest;
    assert raw[1..1 + |row|] == stored;
    assert raw[1 + |row|..] == rest;
    UnfilterUndoesFilter(row, prior, filter, bpp, |row|);
    assert row[..|row|] == row;
  }

  // For every image, pixel size and per-row choice among the five filters: decoding the scanlines
  // returns the original bytes.
  lemma {:induction false} ImageRoundTrip(rows: seq<seq<Byte>>, filters: seq<Byte>, stride: nat, prior: seq<Byte>, bpp: nat)
    requires bpp > 0 && |filters| == |rows| && Rectangular(rows, stride)
    requires KnownFilters(filters)
    ensures |EncodeRows(rows, filters, prior, bpp)| == RawLength(|rows|, stride)
    ensures DecodeRows(EncodeRows(rows, filters, prior, bpp), |rows|, stride, prior, bpp) == Some(rows)
    decreases rows
  {
    if rows != [] {
      assert |rows[0]| == stride && filters[0] <= PAETH_FILTER;
      assert Rectangular(rows[1..], stride) && KnownFilters(filters[1..]);
      ImageRoundTrip(rows[1..], filters[1..], stride, rows[0], bpp);
      EncodeDecodeStep(rows, filters, stride, prior, bpp);
    }
  }

  lemma EncodeDecodeStep(rows: seq<seq<Byte>>, filters: seq<Byte>, stride: nat, prior: seq<Byte>, bpp: nat)
    requires bpp > 0 && |filters| == |rows| > 0 && |rows[0]| == stride && filters[0] <= PAETH_FILTER
    requires |EncodeRows(rows[1..], filters[1..], rows[0], bpp)| == RawLength(|rows| - 1, stride)
    requires DecodeRows(EncodeRows(rows[1..], filters[1..], rows[0], bpp), |rows| - 1, stride, rows[0], bpp)
          == Some(rows[1..])
    ensures |EncodeRows(rows, filters, prior, bpp)| == RawLength(|rows|, stride)
    ensures DecodeRows(EncodeRows(rows, filters, prior, bpp), |rows|, stride, prior, bpp) == Some(rows)
  {
    DecodeOneRow(rows[0], filters[0], prior, bpp, |rows| - 1, EncodeRows(rows[1..], filters[1..], rows[0], bpp));
    assert [rows[0]] + rows[1..] == rows;
  }

  lemma DecodeFirstRow(raw: seq<Byte>, height: nat, stride: nat, prior: seq<Byte>, bpp: nat)
    requires bpp > 0 && height > 0 && |raw| == RawLength(height, stride)
    ensures |raw[1 + stride..]| == RawLength(height - 1, stride)
    ensures DecodeRows(raw, height, stride, prior, bpp)
         == if raw[0] > PAETH_FILTER && stride > 0 then None
            else var row := UnfilterRow(raw[1..1 + stride], prior, raw[0], bpp);
                 Prepended([row], DecodeRows(raw[1 + stride..], height - 1, stride, row, bpp))
  {
  }

  lemma RowSlices(raw: seq<Byte>, offset: nat, stride: nat)
    requires offset + 1 + stride <= |raw|
    ensures raw[offset..][1..1 + stride] == raw[offset + 1..offset + 1 + stride]
    ensures raw[offset..][1 + stride..] == raw[offset + 1 + stride..]
  {
  }

  lemma FitsOneRow(raw: seq<Byte>, offset: nat, height: nat, stride: nat)
    requires height > 0 && offset <= |raw| && |raw[offset..]| == RawLength(height, stride)
    ensures offset + 1 + stride <= |raw| && |raw[offset + 1 + stride..]| == RawLength(height - 1, stride)
  {
  }

  lemma RefusedRow(raw: seq<Byte>, offset: nat, height: nat, stride: nat, prior: seq<Byte>, bpp: nat)
    requires bpp > 0 && height > 0 && offset < |raw| && |raw[offset..]| == RawLength(height, stride)
    requires raw[offset] > PAETH_FILTER && stride > 0
    ensures DecodeRows(raw[offset..], height, stride, prior, bpp) == None
  {
    DecodeFirstRow(raw[offset..], height, stride, prior, bpp);
  }

  lemma DecodedRow(raw: seq<Byte>, offset: nat, rows: seq<seq<Byte>>, left: nat, stride: nat, prior: seq<Byte>, bpp: nat,
                   row: seq<Byte>, end: nat)
    requires bpp > 0 && offset <= |raw| && |raw[offset..]| == RawLength(left + 1, stride)
    requires end == offset + 1 + stride <= |raw| && |raw[end..]| == RawLength(left, stride)
    requires raw[offset] <= PAETH_FILTER || stride == 0
    requires row == UnfilterRow(raw[offset + 1..end], prior, raw[offset], bpp)
    ensures Prepended(rows, DecodeRows(raw[offset..], left + 1, stride, prior, bpp))
         == Prepended(rows + [row], DecodeRows(raw[end..], left, stride, row, bpp))
  {
    DecodeFirstRow(raw[offset..], left + 1, stride, prior, bpp);
    RowSlices(raw, offset, stride);
    PrependedTwice(rows, [row], DecodeRows(raw[end..], left, stride, row, bpp));
  }

  method CopyOf(bytes: seq<Byte>) returns (copy: array<Byte>)
    ensures fresh(copy) && copy[..] == bytes
  {
    copy := new Byte[|bytes|](i requires 0 <= i < |bytes| => bytes[i]);
  }

  // One turn of the decoder's loop: a copy of the stored row, unfiltered in place against the previous one.
  method DecodeRow(raw: seq<Byte>, offset: nat, prior: array<Byte>, bpp: nat) returns (row: Option<array<Byte>>)
    requires bpp > 0 && offset + 1 + prior.Length <= |raw|
    ensures row.Some? <==> raw[offset] <= PAETH_FILTER || prior.Length == 0
    ensures row.Some? ==> fresh(row.value) && row.value.Length == prior.Length
    ensures row.Some? ==>
              row.value[..] == UnfilterRow(raw[offset + 1..offset + 1 + prior.Length], prior[..], raw[offset], bpp)
  {
    var current := CopyOf(raw[offset + 1..offset + 1 + prior.Length]);
    var ok := UnfilterRowInPlace(current, prior, raw[offset], bpp);
    row := if ok then Some(current) else None;
  }

  // The decoder's loop over the rows.
  method DecodeImage(raw: seq<Byte>, height: nat, stride: nat, bpp: nat) returns (r: Option<seq<seq<Byte>>>)
    requires bpp > 0 && |raw| == RawLength(height, stride)
    ensures r == DecodeRows(raw, height, stride, ZeroRow(stride), bpp)
  {
    var rows: seq<seq<Byte>> := [];
    var prior := new Byte[stride](i => 0);
    ghost var whole := DecodeRows(raw, height, stride, ZeroRow(stride), bpp);
    var offset := 0;
    var rowIndex := 0;
    ghost var above := prior[..];
    assert raw[offset..] == raw && above == ZeroRow(stride);
    PrependedTwice([], [], whole);
    while rowIndex < height
      invariant 0 <= rowIndex <= height && prior.Length == stride && prior[..] == above
      invariant 0 <= offset <= |raw| && |raw[offset..]| == RawLength(height - rowIndex, stride)
      invariant whole == Prepended(rows, DecodeRows(raw[offset..], height - rowIndex, stride, above, bpp))
    {
      ghost var left, end := height - rowIndex - 1, offset + 1 + stride;
      FitsOneRow(raw, offset, left + 1, stride);
      var current := DecodeRow(raw, offset, prior, bpp);
      if current.None? {
        RefusedRow(raw, offset, left + 1, stride, above, bpp);
        return None;
      }
      ghost var row := current.value[..];
      DecodedRow(raw, offset, rows, left, stride, above, bpp, row, end);
      offset := offset + 1 + stride;
      rowIndex := rowIndex + 1;
      rows := rows + [current.value[..]];
      prior := current.value;
      above := row;
      assert offset == end && height - rowIndex == left;
    }
    assert rows + [] == rows;
    r := Some(rows);
  }
}
