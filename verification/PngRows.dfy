/** Undoing the row filters of a PNG image (section 9 of the PNG specification, ISO/IEC 15948),
    for 8-bit channels without interlacing. Inflating is the identity here. */
module PngRows {
  import opened Wrappers
  import opened Sequences

  type Byte = n: nat | n < 256

  function Distance(a: int, b: int): nat { if a < b then b - a else a - b }

  /** The neighbour nearest to left + up - upperLeft, ties going to left, then to up. */
  function Paeth(left: nat, up: nat, upperLeft: nat): (p: nat)
    ensures p == left || p == up || p == upperLeft
    ensures var e := left + up - upperLeft;
            && Distance(e, p) <= Distance(e, left) && Distance(e, p) <= Distance(e, up)
                && Distance(e, p) <= Distance(e, upperLeft)
            && (Distance(e, left) == Distance(e, p) ==> p == left)
            && (Distance(e, left) != Distance(e, p) && Distance(e, up) == Distance(e, p) ==> p == up)
  {
    var estimate := left + up - upperLeft;
    var a, b, c := Distance(estimate, left), Distance(estimate, up), Distance(estimate, upperLeft);
    if a <= b && a <= c then left else if b <= c then up else upperLeft
  }

  /** What each filter type predicts from the neighbours; type 0 predicts nothing. */
  function Predictor(filter: nat, left: Byte, up: Byte, upperLeft: Byte): nat {
    if filter == 1 then left
    else if filter == 2 then up
    else if filter == 3 then (left + up) / 2
    else if filter == 4 then Paeth(left, up, upperLeft)
    else 0
  }

  /** The byte one pixel before position i, zero to the left of the image. */
  function Before(row: seq<Byte>, i: nat, channels: nat): Byte {
    if channels <= i && i - channels < |row| then row[i - channels] else 0
  }

  /** The filtering of the specification: every byte less its prediction, from the raw bytes. */
  function FilterRow(raw: seq<Byte>, previous: seq<Byte>, channels: nat, filter: nat): (f: seq<Byte>)
    requires |previous| == |raw|
    ensures |f| == |raw|
  {
    seq(|raw|, i requires 0 <= i < |raw| =>
      (raw[i] - Predictor(filter, Before(raw, i, channels), previous[i], Before(previous, i, channels))) % 256)
  }

  /** A filtered byte plus its prediction. */
  function Recover(filter: nat, value: Byte, left: Byte, up: Byte, upperLeft: Byte): Byte {
    (value + Predictor(filter, left, up, upperLeft)) % 256
  }

  /** The first n bytes recovered: the left neighbours are the ones already recovered. */
  function Unfiltered(filtered: seq<Byte>, previous: seq<Byte>, channels: nat, filter: nat, n: nat): (raw: seq<Byte>)
    requires |previous| == |filtered| && n <= |filtered|
    ensures |raw| == n
  {
    if n == 0 then []
    else
      var done := Unfiltered(filtered, previous, channels, filter, n - 1);
      done + [Recover(filter, filtered[n - 1], Before(done, n - 1, channels), previous[n - 1],
          Before(previous, n - 1, channels))]
  }

  method Combine(filter: nat, value: Byte, left: Byte, up: Byte, upperLeft: Byte) returns (b: Byte)
    ensures b == Recover(filter, value, left, up, upperLeft)
  {
    var v: int := value;
    if filter == 1 { return (v + left) % 256; }
    if filter == 2 { return (v + up) % 256; }
    if filter == 3 { return (v + (left + up) / 2) % 256; }
    if filter == 4 { return (v + Paeth(left, up, upperLeft)) % 256; }
    return value;
  }

  /** The loop over one row, in place. */
  method UnfilterRow(row: array<Byte>, previous: seq<Byte>, channels: nat, filter: nat)
    requires 0 < channels && row.Length == |previous|
    modifies row
    ensures row[..] == Unfiltered(old(row[..]), previous, channels, filter, row.Length)
  {
    ghost var was := row[..];
    for i := 0 to row.Length
      invariant row[..i] == Unfiltered(was, previous, channels, filter, i)
      invariant row[i..] == was[i..]
    {
      var left: Byte := if i >= channels then row[i - channels] else 0;
      var upperLeft: Byte := if i >= channels then previous[i - channels] else 0;
      assert left == Before(row[..i], i, channels) && upperLeft == Before(previous, i, channels);
      assert row[i] == row[i..][0] == was[i];
      ghost var done, rest := row[..i], row[i..];
      var b := Combine(filter, row[i], left, previous[i], upperLeft);
      row[i] := b;
      assert row[..i + 1] == done + [b];
      assert row[i + 1..] == rest[1..];
    }
    assert row[..] == row[..row.Length];
  }

  lemma Modulo256(x: int, q: int, r: Byte)
    requires x == 256 * q + r
    ensures x % 256 == r
  {
    assert x == 256 * (x / 256) + x % 256;
  }

  /** Subtracting a prediction and adding it back, modulo 256. */
  lemma Undo(raw: Byte, prediction: int)
    ensures ((raw - prediction) % 256 + prediction) % 256 == raw
    ensures ((raw + prediction) % 256 - prediction) % 256 == raw
  {
    var less, more := raw - prediction, raw + prediction;
    assert less == 256 * (less / 256) + less % 256 && more == 256 * (more / 256) + more % 256;
    Modulo256(less % 256 + prediction, -(less / 256), raw);
    Modulo256(more % 256 - prediction, -(more / 256), raw);
  }

  /** One byte, filtered and recovered, once the bytes to its left are recovered. */
  lemma ByteBack(raw: seq<Byte>, previous: seq<Byte>, channels: nat, filter: nat, i: nat)
    requires 0 < channels && |previous| == |raw| && i < |raw|
    ensures Recover(filter, FilterRow(raw, previous, channels, filter)[i],
                    Before(raw[..i], i, channels), previous[i], Before(previous, i, channels)) == raw[i]
  {
    assert Before(raw[..i], i, channels) == Before(raw, i, channels);
    Undo(raw[i], Predictor(filter, Before(raw, i, channels), previous[i], Before(previous, i, channels)));
  }

  /** Unfiltering inverts filtering. */
  lemma {:induction false} UnfilterInvertsFilter(raw: seq<Byte>, previous: seq<Byte>, channels: nat, filter: nat,
      n: nat)
    requires 0 < channels && |previous| == |raw| && n <= |raw|
    ensures Unfiltered(FilterRow(raw, previous, channels, filter), previous, channels, filter, n) == raw[..n]
  {
    if n > 0 {
      var filtered := FilterRow(raw, previous, channels, filter);
      UnfilterInvertsFilter(raw, previous, channels, filter, n - 1);
      assert Unfiltered(filtered, previous, channels, filter, n) == raw[..n - 1] + [raw[n - 1]] by {
        ByteBack(raw, previous, channels, filter, n - 1);
      }
      assert raw[..n] == raw[..n - 1] + [raw[n - 1]];
    }
  }

  lemma {:induction false} UnfilteredPrefix(filtered: seq<Byte>, previous: seq<Byte>, channels: nat, filter: nat,
      n: nat, k: nat)
    requires |previous| == |filtered| && k <= n <= |filtered|
    ensures Unfiltered(filtered, previous, channels, filter, n)[..k]
        == Unfiltered(filtered, previous, channels, filter, k)
  {
    if k < n {
      UnfilteredPrefix(filtered, previous, channels, filter, n - 1, k);
      assert Unfiltered(filtered, previous, channels, filter, n)[..k]
          == Unfiltered(filtered, previous, channels, filter, n - 1)[..k];
    }
  }

  /** One recovered byte, filtered again. */
  lemma ByteForth(filtered: seq<Byte>, previous: seq<Byte>, channels: nat, filter: nat, i: nat)
    requires 0 < channels && |previous| == |filtered| && i < |filtered|
    ensures var raw := Unfiltered(filtered, previous, channels, filter, |filtered|);
            (raw[i] - Predictor(filter, Before(raw, i, channels), previous[i], Before(previous, i, channels))) % 256
                == filtered[i]
  {
    var raw := Unfiltered(filtered, previous, channels, filter, |filtered|);
    UnfilteredPrefix(filtered, previous, channels, filter, |filtered|, i);
    UnfilteredPrefix(filtered, previous, channels, filter, |filtered|, i + 1);
    assert raw[i] == raw[..i + 1][i];
    assert Before(raw[..i], i, channels) == Before(raw, i, channels);
    Undo(filtered[i], Predictor(filter, Before(raw, i, channels), previous[i], Before(previous, i, channels)));
  }

  /** And filtering inverts unfiltering: every filtered row is the filtering of one raw row. */
  lemma FilterInvertsUnfilter(filtered: seq<Byte>, previous: seq<Byte>, channels: nat, filter: nat)
    requires 0 < channels && |previous| == |filtered|
    ensures FilterRow(Unfiltered(filtered, previous, channels, filter, |filtered|), previous, channels, filter)
        == filtered
  {
    var raw := Unfiltered(filtered, previous, channels, filter, |filtered|);
    forall i | 0 <= i < |filtered| ensures FilterRow(raw, previous, channels, filter)[i] == filtered[i] {
      ByteForth(filtered, previous, channels, filter, i);
    }
  }

  // ----- The rows of an image -----

  function Zeros(n: nat): seq<Byte> { seq(n, i => 0) }

  /** The row above the next one: zeros above the first. */
  function Above(rows: seq<seq<Byte>>, rowLength: nat): seq<Byte> {
    if rows == [] then Zeros(rowLength) else rows[|rows| - 1]
  }

  function Offset(rows: nat, rowLength: nat): nat {
    if rows == 0 then 0 else Offset(rows - 1, rowLength) + 1 + rowLength
  }

  /** The filtered bytes of the row whose filter type is at `start`. */
  function RowAfter(decoded: seq<Byte>, start: nat, rowLength: nat): (row: seq<Byte>)
    requires start + 1 + rowLength <= |decoded|
    ensures |row| == rowLength
  {
    decoded[start + 1..start + 1 + rowLength]
  }

  /** The raw rows, or None when a filter type is unknown. */
  function UnfilterRows(decoded: seq<Byte>, rows: nat, rowLength: nat, channels: nat): (r: Option<seq<seq<Byte>>>)
    requires Offset(rows, rowLength) <= |decoded|
    ensures r.Some? ==> |r.value| == rows && forall k: nat :: k < rows ==> |r.value[k]| == rowLength
  {
    if rows == 0 then Some([])
    else
      var above := UnfilterRows(decoded, rows - 1, rowLength, channels);
      var start := Offset(rows - 1, rowLength);
      if above.None? || decoded[start] > 4 then None
      else
        Some(above.value + [Unfiltered(RowAfter(decoded, start, rowLength), Above(above.value, rowLength), channels,
                                       decoded[start], rowLength)])
  }

  /** One row more, from the bytes after the rows recovered so far. */
  lemma NextRow(decoded: seq<Byte>, y: nat, rowLength: nat, channels: nat, rows: seq<seq<Byte>>)
    requires Offset(y + 1, rowLength) <= |decoded| && Offset(y, rowLength) + 1 + rowLength <= |decoded|
    requires UnfilterRows(decoded, y, rowLength, channels) == Some(rows)
    ensures var start := Offset(y, rowLength);
            UnfilterRows(decoded, y + 1, rowLength, channels)
            == if decoded[start] > 4 then None
               else Some(rows + [Unfiltered(RowAfter(decoded, start, rowLength), Above(rows, rowLength), channels,
                                            decoded[start], rowLength)])
  {
  }

  method RecoverRow(filtered: seq<Byte>, previous: seq<Byte>, channels: nat, filter: nat) returns (row: array<Byte>)
    requires 0 < channels && |filtered| == |previous|
    ensures fresh(row) && row.Length == |filtered|
    ensures row[..] == Unfiltered(filtered, previous, channels, filter, |filtered|)
  {
    row := new Byte[|filtered|](i requires 0 <= i < |filtered| => filtered[i]);
    assert row[..] == filtered;
    UnfilterRow(row, previous, channels, filter);
  }

  /** One row of the decoder: its filter type, its bytes, and where the next one starts. */
  method DecodeRow(decoded: seq<Byte>, start: nat, rowLength: nat, previous: seq<Byte>, channels: nat)
    returns (r: Option<seq<Byte>>, offset: nat)
    requires 0 < channels && start + 1 + rowLength <= |decoded| && |previous| == rowLength
    ensures offset == start + 1 + rowLength
    ensures r == if decoded[start] > 4 then None
                 else Some(Unfiltered(RowAfter(decoded, start, rowLength), previous, channels, decoded[start],
                     rowLength))
  {
    var filter := decoded[start];
    offset := start + 1;
    var bytes := decoded[offset..offset + rowLength];
    offset := offset + rowLength;
    if filter > 4 { return None, offset; }
    var row := RecoverRow(bytes, previous, channels, filter);
    return Some(row[..]), offset;
  }

  /** The row loop of the decoder; None stands for the null it returns on an image it does not take. */
  method DecodeRows(decoded: seq<Byte>, height: nat, rowLength: nat, channels: nat) returns (r: Option<seq<seq<Byte>>>)
    requires 0 < channels
    ensures |decoded| < Offset(height, rowLength) ==> r.None?
    ensures Offset(height, rowLength) <= |decoded| ==> r == UnfilterRows(decoded, height, rowLength, channels)
  {
    if |decoded| < Offset(height, rowLength) { return None; }
    var rows: seq<seq<Byte>> := [];
    var offset := 0;
    var previous := Zeros(rowLength);
    for y := 0 to height
      invariant offset == Offset(y, rowLength) <= |decoded|
      invariant UnfilterRows(decoded, y, rowLength, channels) == Some(rows)
      invariant previous == Above(rows, rowLength)
    {
      OffsetGrows(y + 1, height, rowLength);
      var row: Option<seq<Byte>>;
      row, offset := DecodeRow(decoded, offset, rowLength, previous, channels);
      assert UnfilterRows(decoded, y + 1, rowLength, channels) == if row.None? then None
          else Some(rows + [row.value]) by {
        NextRow(decoded, y, rowLength, channels, rows);
      }
      if row.None? {
        RowsFailOnward(decoded, y + 1, height, rowLength, channels);
        return None;
      }
      rows := rows + [row.value];
      previous := row.value;
    }
    return Some(rows);
  }

  lemma {:induction false} OffsetGrows(a: nat, b: nat, rowLength: nat)
    requires a <= b
    ensures Offset(a, rowLength) <= Offset(b, rowLength)
  {
    if a < b { OffsetGrows(a, b - 1, rowLength); }
  }

  lemma {:induction false} RowsFailOnward(decoded: seq<Byte>, n: nat, rows: nat, rowLength: nat, channels: nat)
    requires n <= rows && Offset(rows, rowLength) <= |decoded| && Offset(n, rowLength) <= |decoded|
    ensures UnfilterRows(decoded, n, rowLength, channels).None?
        ==> UnfilterRows(decoded, rows, rowLength, channels).None?
  {
    if n < rows {
      OffsetGrows(rows - 1, rows, rowLength);
      RowsFailOnward(decoded, n, rows - 1, rowLength, channels);
    }
  }

  /** The stream an encoder writes: for each row its filter type and its filtered bytes. */
  function EncodeRows(raw: seq<seq<Byte>>, filters: seq<Byte>, rowLength: nat, channels: nat): seq<Byte>
    requires |filters| == |raw| && forall k: nat :: k < |raw| ==> |raw[k]| == rowLength
  {
    if raw == [] then []
    else
      var n := |raw| - 1;
      EncodeRows(raw[..n], filters[..n], rowLength, channels)
      + [filters[n]] + FilterRow(raw[n], Above(raw[..n], rowLength), channels, filters[n])
  }

  lemma {:induction false} EncodedLength(raw: seq<seq<Byte>>, filters: seq<Byte>, rowLength: nat, channels: nat)
    requires |filters| == |raw| && forall k: nat :: k < |raw| ==> |raw[k]| == rowLength
    ensures |EncodeRows(raw, filters, rowLength, channels)| == Offset(|raw|, rowLength)
  {
    if raw != [] {
      EncodedLength(raw[..|raw| - 1], filters[..|raw| - 1], rowLength, channels);
    }
  }

  lemma RowStays(decoded: seq<Byte>, more: seq<Byte>, start: nat, rowLength: nat)
    requires start + 1 + rowLength <= |decoded|
    ensures (decoded + more)[start] == decoded[start]
    ensures RowAfter(decoded + more, start, rowLength) == RowAfter(decoded, start, rowLength)
  {
  }

  lemma {:induction false} MoreDecoded(decoded: seq<Byte>, more: seq<Byte>, rows: nat, rowLength: nat, channels: nat)
    requires Offset(rows, rowLength) <= |decoded|
    ensures UnfilterRows(decoded + more, rows, rowLength, channels) == UnfilterRows(decoded, rows, rowLength, channels)
  {
    if rows > 0 {
      var start := Offset(rows - 1, rowLength);
      MoreDecoded(decoded, more, rows - 1, rowLength, channels);
      RowStays(decoded, more, start, rowLength);
    }
  }

  lemma RowAtEnd(above: seq<Byte>, filter: Byte, row: seq<Byte>)
    ensures var decoded := above + [filter] + row;
            decoded[|above|] == filter && RowAfter(decoded, |above|, |row|) == row
  {
  }

  lemma UnfilterNext(above: seq<Byte>, filter: Byte, row: seq<Byte>, before: seq<seq<Byte>>, channels: nat)
    requires |above| == Offset(|before|, |row|) && filter <= 4
    requires UnfilterRows(above, |before|, |row|, channels) == Some(before)
    ensures var decoded := above + [filter] + row;
            UnfilterRows(decoded, |before| + 1, |row|, channels)
            == Some(before + [Unfiltered(row, Above(before, |row|), channels, filter, |row|)])
  {
    var decoded := above + [filter] + row;
    assert UnfilterRows(decoded, |before|, |row|, channels) == Some(before) by {
      Regroup(above, [filter], row);
      MoreDecoded(above, [filter] + row, |before|, |row|, channels);
    }
    RowAtEnd(above, filter, row);
    NextRow(decoded, |before|, |row|, channels, before);
  }

  lemma OneRowMore(above: seq<Byte>, before: seq<seq<Byte>>, raw: seq<Byte>, filter: Byte, channels: nat)
    requires 0 < channels && filter <= 4 && |above| == Offset(|before|, |raw|)
    requires UnfilterRows(above, |before|, |raw|, channels) == Some(before)
    ensures UnfilterRows(above + [filter] + FilterRow(raw, Above(before, |raw|), channels, filter), |before| + 1, |raw|,
        channels)
         == Some(before + [raw])
  {
    var previous := Above(before, |raw|);
    UnfilterNext(above, filter, FilterRow(raw, previous, channels, filter), before, channels);
    UnfilterInvertsFilter(raw, previous, channels, filter, |raw|);
    assert raw[..|raw|] == raw;
  }

  lemma SplitLast<T>(s: seq<T>)
    requires s != []
    ensures s == s[..|s| - 1] + [s[|s| - 1]]
  {
  }

  /** Any raw rows, filtered with any choice of types 0 to 4, are recovered byte for byte. */
  lemma {:induction false} RoundTrip(raw: seq<seq<Byte>>, filters: seq<Byte>, rowLength: nat, channels: nat)
    requires 0 < channels && |filters| == |raw| && forall k: nat :: k < |raw| ==> |raw[k]| == rowLength
    requires forall k: nat :: k < |filters| ==> filters[k] <= 4
    ensures Offset(|raw|, rowLength) <= |EncodeRows(raw, filters, rowLength, channels)|
    ensures UnfilterRows(EncodeRows(raw, filters, rowLength, channels), |raw|, rowLength, channels) == Some(raw)
  {
    EncodedLength(raw, filters, rowLength, channels);
    if raw != [] {
      var n := |raw| - 1;
      EncodedLength(raw[..n], filters[..n], rowLength, channels);
      RoundTrip(raw[..n], filters[..n], rowLength, channels);
      OneRowMore(EncodeRows(raw[..n], filters[..n], rowLength, channels), raw[..n], raw[n], filters[n], channels);
      SplitLast(raw);
    }
  }
}
