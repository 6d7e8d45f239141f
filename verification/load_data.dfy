/**
 * Loading the raw CSV files: the column layout of train and test files,
 * the row limit, the header handling, the timestamp prefix and the index
 * label drawn from the key's md5 digest; the conversion of every raw CSV
 * file into a parquet file; and the sorted lists of parquet files the
 * feature step reads.
 *
 * A CSV file is its non-blank lines, each split into fields. Number
 * parsing, `datetime.strptime` and `hashlib.md5` are the fields of a
 * `Converters` value.
 */
module LoadData {
  import opened Common
  import opened Records
  import opened Sorting
  import opened Strings

  // ---------------------------------------------------------------------
  // The column layout

  /** The columns of a test file, in file order. */
  const BaseColumns: seq<string> := [
    "key", "pickup_datetime", "pickup_longitude", "pickup_latitude",
    "dropoff_longitude", "dropoff_latitude", "passenger_count"]

  /**
   * The columns `_parse_data` keeps: a train file carries `fare_amount`
   * directly after `key`; any other type does not carry it.
   */
  function ColumnLayout(type_: string): (columns: seq<string>)
    ensures |columns| == LayoutWidth(type_)
    ensures columns[0] == "key"
    ensures "fare_amount" in columns <==> type_ == "train"
    ensures type_ == "train" ==> columns[1] == "fare_amount" && columns[..1] + columns[2..] == BaseColumns
    ensures type_ != "train" ==> columns == BaseColumns
  {
    if type_ == "train" then
      assert "fare_amount"[0] != "key"[0];
      BaseColumns[..1] + ["fare_amount"] + BaseColumns[1..]
    else
      assert "fare_amount" !in BaseColumns by {
        forall k | 0 <= k < |BaseColumns| ensures BaseColumns[k] != "fare_amount" {
          assert BaseColumns[k][0] != 'f' || |BaseColumns[k]| != |"fare_amount"|;
        }
      }
      BaseColumns
  }

  /** The number of columns of a file of the type. */
  function LayoutWidth(type_: string): nat {
    if type_ == "train" then 8 else 7
  }

  /** Where `_parse_data` finds each field of a row laid out as `ColumnLayout(type_)`. */
  function Offset(type_: string): nat {
    if type_ == "train" then 1 else 0
  }

  /** No column name is repeated, so selecting the columns by name finds each where the layout puts it. */
  lemma LayoutDistinct(type_: string)
    ensures forall i, j :: 0 <= i < j < LayoutWidth(type_) ==> ColumnLayout(type_)[i] != ColumnLayout(type_)[j]
  {
    var c := ColumnLayout(type_);
    BaseDistinct();
    if type_ == "train" {
      assert c == BaseColumns[..1] + ["fare_amount"] + BaseColumns[1..];
      forall i, j | 0 <= i < j < |c|
        ensures c[i] != c[j]
      {
        if i == 1 || j == 1 {
          assert |c[i]| != |c[j]|;
        } else {
          var i', j' := if i == 0 then 0 else i - 1, j - 1;
          assert c[i] == BaseColumns[i'] && c[j] == BaseColumns[j'];
        }
      }
    }
  }

  /** The seven base names differ in length or in their eighth character. */
  lemma BaseDistinct()
    ensures forall i, j :: 0 <= i < j < |BaseColumns| ==> BaseColumns[i] != BaseColumns[j]
  {
    var c := BaseColumns;
    forall i, j | 0 <= i < j < |c|
      ensures c[i] != c[j]
    {
      if |c[i]| == |c[j]| {
        assert c[i][7] != c[j][7];
      }
    }
  }

  /** The row limit: `nrows` is passed only for an integer `limit_lines` above 0. */
  function RowLimit(limitLines: Option<int>): (nrows: Option<nat>)
    ensures nrows.Some? <==> limitLines.Some? && limitLines.value > 0
    ensures nrows.Some? ==> nrows.value == limitLines.value
  {
    if limitLines.Some? && limitLines.value > 0 then Some(limitLines.value) else None
  }

  // ---------------------------------------------------------------------
  // Reading a CSV file

  /** A CSV file: its non-blank lines, each split into fields. */
  type Csv = seq<seq<string>>

  /** A column label: a name from the header line, or a position when there is none. */
  datatype Label = Name(name: string) | Position(pos: nat)

  /** A dataframe of text fields. */
  datatype Frame = Frame(labels: seq<Label>, rows: seq<seq<string>>)

  /** The first `nrows` rows when a limit is given. */
  function Limit<T>(s: seq<T>, nrows: Option<nat>): (r: seq<T>)
    ensures nrows.None? ==> r == s
    ensures nrows.Some? ==> |r| == if nrows.value < |s| then nrows.value else |s|
    ensures r == s[..|r|]
  {
    if nrows.Some? && nrows.value < |s| then s[..nrows.value] else s
  }

  /** A short line is completed with empty (null) fields. */
  function Pad(line: seq<string>, width: nat): (r: seq<string>)
    requires |line| <= width
    ensures |r| == width && r[..|line|] == line
    ensures forall k :: |line| <= k < width ==> r[k] == ""
  {
    line + seq(width - |line|, _ => "")
  }

  predicate FitsWidth(lines: Csv, width: nat) {
    forall i :: 0 <= i < |lines| ==> |lines[i]| <= width
  }

  function PositionLabels(width: nat): (labels: seq<Label>)
    ensures |labels| == width
    ensures forall k :: 0 <= k < width ==> labels[k] == Position(k)
  {
    seq(width, (k: int) requires 0 <= k < width => Position(k))
  }

  /** The data lines and the labels, short lines padded. */
  function Tabulate(labels: seq<Label>, data: Csv): (r: Result<Frame>)
    ensures r.Ok? <==> FitsWidth(data, |labels|)
    ensures r.Ok? ==> r.value.labels == labels && |r.value.rows| == |data|
    ensures r.Ok? ==> forall i :: 0 <= i < |data| ==> r.value.rows[i] == Pad(data[i], |labels|)
    ensures r.Err? ==> r.error.ValueError?
  {
    if FitsWidth(data, |labels|) then
      Ok(Frame(labels, seq(|data|, i requires 0 <= i < |data| => Pad(data[i], |labels|))))
    else Err(ValueError("Error tokenizing data"))
  }

  /**
   * `pandas.read_csv` with `header` and `nrows`: with a header row, its
   * fields name the columns and the data starts on the next line; without
   * one, the columns are numbered and every line is data, the first line
   * fixing the width. At most `nrows` data lines are read; a line with
   * more fields than columns is an error, a shorter one is padded.
   */
  function ReadCsv(lines: Csv, header: Option<nat>, nrows: Option<nat>): (r: Result<Frame>)
    ensures lines == [] ==> r == Err(EmptyDataError)
    ensures r.Ok? ==> forall i :: 0 <= i < |r.value.rows| ==> |r.value.rows[i]| == |r.value.labels|
  {
    if lines == [] then Err(EmptyDataError)
    else match header
      case Some(h) =>
        if h >= |lines| then Err(ValueError("header row beyond the end of the file"))
        else Tabulate(Named(lines[h]), Limit(lines[h + 1..], nrows))
      case None =>
        Tabulate(PositionLabels(|lines[0]|), Limit(lines, nrows))
  }

  /** The labels of columns with the given names. */
  function Named(names: seq<string>): (labels: seq<Label>)
    ensures |labels| == |names|
    ensures forall k :: 0 <= k < |names| ==> labels[k] == Name(names[k])
  {
    Map(names, (n: string) => Name(n))
  }

  /** `df.columns = columns`: the names replace the labels, one for one. */
  function Relabel(df: Frame, columns: seq<string>): (r: Result<Frame>)
    ensures r.Ok? <==> |columns| == |df.labels|
    ensures r.Ok? ==> r.value == Frame(Named(columns), df.rows)
    ensures r.Err? ==> r.error.ValueError?
  {
    if |columns| != |df.labels| then Err(ValueError("Length mismatch"))
    else Ok(Frame(Named(columns), df.rows))
  }

  /** The position of the first column named `name`. */
  function LabelIndex(labels: seq<Label>, name: string): (r: Option<nat>)
    ensures r.None? <==> Name(name) !in labels
    ensures r.Some? ==> r.value < |labels| && labels[r.value] == Name(name) && Name(name) !in labels[..r.value]
    decreases |labels|
  {
    if labels == [] then None
    else if labels[0] == Name(name) then Some(0)
    else match LabelIndex(labels[1..], name)
      case None => None
      case Some(j) =>
        assert labels[..j + 1] == [labels[0]] + labels[1..][..j];
        Some(j + 1)
  }

  /** The positions of the selected columns; a missing name is a `KeyError`. */
  function ColumnIndices(labels: seq<Label>, columns: seq<string>): (r: Result<seq<nat>>)
    ensures r.Ok? <==> forall k :: 0 <= k < |columns| ==> Name(columns[k]) in labels
    ensures r.Ok? ==> |r.value| == |columns|
    ensures r.Ok? ==> forall k :: 0 <= k < |columns| ==> r.value[k] == LabelIndex(labels, columns[k]).value
    ensures r.Err? ==> r.error.KeyError?
    decreases |columns|
  {
    if columns == [] then Ok([])
    else match LabelIndex(labels, columns[0])
      case None => Err(KeyError(columns[0]))
      case Some(j) =>
        match ColumnIndices(labels, columns[1..])
        case Err(e) => Err(e)
        case Ok(rest) =>
          assert forall k :: 1 <= k < |columns| ==> columns[k] == columns[1..][k - 1];
          Ok([j] + rest)
  }

  /** `df[columns]`: every row reduced to the named columns, in the order named. */
  function Select(df: Frame, columns: seq<string>): (r: Result<seq<seq<string>>>)
    requires forall i :: 0 <= i < |df.rows| ==> |df.rows[i]| == |df.labels|
    ensures r.Ok? <==> ColumnIndices(df.labels, columns).Ok?
    ensures r.Err? ==> r.error.KeyError?
    ensures r.Ok? ==> |r.value| == |df.rows|
    ensures r.Ok? ==> forall i :: 0 <= i < |df.rows| ==> |r.value[i]| == |columns|
    ensures r.Ok? ==> forall i, k :: 0 <= i < |df.rows| && 0 <= k < |columns| ==>
      r.value[i][k] == df.rows[i][ColumnIndices(df.labels, columns).value[k]]
  {
    match ColumnIndices(df.labels, columns)
    case Err(e) => Err(e)
    case Ok(idx) =>
      Ok(seq(|df.rows|, i requires 0 <= i < |df.rows| =>
        seq(|columns|, k requires 0 <= k < |columns| => df.rows[i][idx[k]])))
  }

  /** With distinct names, each name's first column is its own. */
  lemma IndicesOfDistinct(columns: seq<string>)
    requires forall i, j :: 0 <= i < j < |columns| ==> columns[i] != columns[j]
    ensures forall k :: 0 <= k < |columns| ==> LabelIndex(Named(columns), columns[k]) == Some(k)
  {
    var labels := Named(columns);
    forall k | 0 <= k < |columns|
      ensures LabelIndex(labels, columns[k]) == Some(k)
    {
      assert labels[k] == Name(columns[k]);
    }
  }

  /** With distinct names, selecting the columns picks each column at its own position. */
  lemma IdentityIndices(columns: seq<string>)
    requires forall i, j :: 0 <= i < j < |columns| ==> columns[i] != columns[j]
    ensures ColumnIndices(Named(columns), columns).Ok?
    ensures forall k :: 0 <= k < |columns| ==> ColumnIndices(Named(columns), columns).value[k] == k
  {
    var labels := Named(columns);
    IndicesOfDistinct(columns);
    assert forall k :: 0 <= k < |columns| ==> Name(columns[k]) in labels;
  }

  /** After `df.columns = columns` with distinct names, `df[columns]` keeps every row as it is. */
  lemma SelectRelabelled(rows: seq<seq<string>>, columns: seq<string>)
    requires forall i, j :: 0 <= i < j < |columns| ==> columns[i] != columns[j]
    requires forall i :: 0 <= i < |rows| ==> |rows[i]| == |columns|
    ensures Select(Frame(Named(columns), rows), columns) == Ok(rows)
  {
    var labels := Named(columns);
    var found := ColumnIndices(labels, columns);
    IdentityIndices(columns);
    var r := Select(Frame(labels, rows), columns);
    assert r.Ok? && |r.value| == |rows|;
    forall i | 0 <= i < |rows|
      ensures r.value[i] == rows[i]
    {
      forall k | 0 <= k < |columns|
        ensures r.value[i][k] == rows[i][k]
      {
        assert found.value[k] == k;
      }
    }
    assert r.value == rows;
  }

  // ---------------------------------------------------------------------
  // The index label

  /** A hexadecimal digit's value, either case. */
  function HexDigit(c: char): (d: Option<nat>)
    ensures d.Some? ==> d.value < 16
  {
    if '0' <= c <= '9' then Some(c as int - '0' as int)
    else if 'a' <= c <= 'f' then Some(c as int - 'a' as int + 10)
    else if 'A' <= c <= 'F' then Some(c as int - 'A' as int + 10)
    else None
  }

  /** The lower-case digit for a value below 16, as `hexdigest` writes it. */
  function HexChar(d: nat): (c: char)
    requires d < 16
    ensures HexDigit(c) == Some(d)
  {
    if d < 10 then ('0' as int + d) as char else ('a' as int + d - 10) as char
  }

  predicate IsHex(s: string) {
    forall i :: 0 <= i < |s| ==> HexDigit(s[i]).Some?
  }

  predicate IsLowerHex(s: string) {
    forall i :: 0 <= i < |s| ==> '0' <= s[i] <= '9' || 'a' <= s[i] <= 'f'
  }

  /** The number a string of hexadecimal digits writes, most significant digit first. */
  function HexValue(s: string): nat
    requires IsHex(s)
    decreases |s|
  {
    if s == [] then 0 else HexValue(s[..|s| - 1]) * 16 + HexDigit(s[|s| - 1]).value
  }

  function Pow16(n: nat): nat {
    if n == 0 then 1 else 16 * Pow16(n - 1)
  }

  lemma {:induction false} HexValueBound(s: string)
    requires IsHex(s)
    ensures HexValue(s) < Pow16(|s|)
    decreases |s|
  {
    if s != [] {
      HexValueBound(s[..|s| - 1]);
    }
  }

  /** `int(s, base=16)` on a string of digits; anything else, the empty string included, is a `ValueError`. */
  function ParseHex(s: string): (r: Result<nat>)
    ensures r.Ok? <==> s != [] && IsHex(s)
    ensures r.Ok? ==> r.value == HexValue(s) && r.value < Pow16(|s|)
    ensures r.Err? ==> r.error.ValueError?
  {
    if s != [] && IsHex(s) then
      HexValueBound(s);
      Ok(HexValue(s))
    else Err(ValueError("invalid literal for int() with base 16"))
  }

  /** The `n` lower-case hexadecimal digits of `v`, zero-padded. */
  function ToHex(v: nat, n: nat): (s: string)
    ensures |s| == n && IsHex(s) && IsLowerHex(s)
    decreases n
  {
    if n == 0 then [] else ToHex(v / 16, n - 1) + [HexChar(v % 16)]
  }

  /** Writing a value in `n` digits and reading it back gives the value, for any value that fits. */
  lemma {:induction false} HexRoundTrip(v: nat, n: nat)
    requires v < Pow16(n)
    ensures HexValue(ToHex(v, n)) == v
    decreases n
  {
    if n > 0 {
      var s := ToHex(v, n);
      HexRoundTrip(v / 16, n - 1);
      assert s[..n - 1] == ToHex(v / 16, n - 1);
    }
  }

  /** Reading lower-case digits and writing the value back in as many digits gives the digits. */
  lemma {:induction false} HexDigitsRoundTrip(s: string)
    requires IsHex(s) && IsLowerHex(s)
    ensures ToHex(HexValue(s), |s|) == s
    decreases |s|
  {
    if s != [] {
      var init, last := s[..|s| - 1], s[|s| - 1];
      var q, d, v := HexValue(init), HexDigit(last).value, HexValue(s);
      LastDigit(v, q, d);
      HexDigitsRoundTrip(init);
      LowerHexChar(last);
      assert ToHex(v, |s|) == ToHex(v / 16, |init|) + [HexChar(v % 16)];
      assert s == init + [last];
    }
  }

  /** The last digit of `16 * q + d` is `d` and the others write `q`. */
  lemma LastDigit(v: nat, q: nat, d: nat)
    requires d < 16 && v == q * 16 + d
    ensures v / 16 == q && v % 16 == d
  {
  }

  /** A lower-case digit is written back as itself. */
  lemma LowerHexChar(c: char)
    requires '0' <= c <= '9' || 'a' <= c <= 'f'
    ensures HexDigit(c).Some? && HexChar(HexDigit(c).value) == c
  {
  }

  /** Python's `s[:n]`. */
  function Prefix(s: string, n: nat): (r: string)
    ensures |r| == if n < |s| then n else |s|
    ensures r == s[..|r|]
  {
    if n < |s| then s[..n] else s
  }

  /** The index label: the first 16 hexadecimal digits of the key's digest, read as a number. */
  function KeyIndex(digest: string): (r: Result<nat>)
    ensures r.Ok? ==> r.value < 0x1_0000_0000_0000_0000
  {
    Pow16Of16();
    PowMonotone(|Prefix(digest, 16)|, 16);
    ParseHex(Prefix(digest, 16))
  }

  /** 16^16 is 2^64. */
  lemma Pow16Of16()
    ensures Pow16(16) == 0x1_0000_0000_0000_0000
  {
    assert Pow16(4) == 0x1_0000 by {
      assert Pow16(1) == 16 && Pow16(2) == 256 && Pow16(3) == 4096;
    }
    assert Pow16(8) == 0x1_0000_0000 by {
      assert Pow16(5) == 16 * 0x1_0000 && Pow16(6) == 256 * 0x1_0000 && Pow16(7) == 4096 * 0x1_0000;
    }
    assert Pow16(12) == 0x1_0000_0000_0000 by {
      assert Pow16(9) == 16 * 0x1_0000_0000 && Pow16(10) == 256 * 0x1_0000_0000 && Pow16(11) == 4096 * 0x1_0000_0000;
    }
    assert Pow16(13) == 16 * 0x1_0000_0000_0000 && Pow16(14) == 256 * 0x1_0000_0000_0000 && Pow16(15) == 4096 * 0x1_0000_0000_0000;
  }

  lemma {:induction false} PowMonotone(m: nat, n: nat)
    requires m <= n
    ensures Pow16(m) <= Pow16(n)
    decreases n
  {
    if m < n {
      PowMonotone(m, n - 1);
    }
  }

  /**
   * The label is a 64-bit value, and distinct labels come from digests
   * whose first 16 digits differ: every value below 2^64 is the label of
   * exactly the digests starting with its 16-digit lower-case form.
   */
  lemma KeyIndexRoundTrip(v: nat, rest: string)
    requires v < 0x1_0000_0000_0000_0000
    ensures KeyIndex(ToHex(v, 16) + rest) == Ok(v)
  {
    Pow16Of16();
    HexRoundTrip(v, 16);
    assert Prefix(ToHex(v, 16) + rest, 16) == ToHex(v, 16);
  }

  /** An md5 digest's label, written back in 16 digits, is the digest's first 16 digits. */
  lemma KeyIndexDigits(digest: string)
    requires |digest| >= 16 && IsHex(digest[..16]) && IsLowerHex(digest[..16])
    ensures KeyIndex(digest).Ok?
    ensures ToHex(KeyIndex(digest).value, 16) == digest[..16]
  {
    var digits := Prefix(digest, 16);
    assert digits == digest[..16];
    HexDigitsRoundTrip(digits);
  }

  // ---------------------------------------------------------------------
  // Converting rows

  /** The conversions `_parse_data` calls. */
  datatype Converters = Converters(
    float32: string -> Result<Num>,          // a `np.float32` field; an empty field is null
    int32: string -> Result<int>,            // a `np.int32` field
    strptime: string -> Result<Timestamp>,   // `datetime.strptime(s, "%Y-%m-%d %H:%M:%S")`
    md5: string -> string)                   // the hexadecimal md5 digest of the key's UTF-8 bytes

  /** The converted fields of one row, each a value or the error its conversion raises. */
  datatype Fields = Fields(
    fare: Result<Num>,
    pickupLongitude: Result<Num>, pickupLatitude: Result<Num>,
    dropoffLongitude: Result<Num>, dropoffLatitude: Result<Num>,
    passengerCount: Result<int>,
    timestamp: Result<Timestamp>,
    index: Result<nat>)

  /**
   * The conversions of a row laid out as `ColumnLayout(type_)`: the
   * numbers, the first 19 characters of the timestamp, and the index label
   * of the key's digest; a test row has a null fare.
   */
  function Convert(row: seq<string>, type_: string, conv: Converters): Fields
    requires |row| == LayoutWidth(type_)
  {
    var o := Offset(type_);
    Fields(
      if type_ == "train" then conv.float32(row[1]) else Ok(None),
      conv.float32(row[o + 2]), conv.float32(row[o + 3]),
      conv.float32(row[o + 4]), conv.float32(row[o + 5]),
      conv.int32(row[o + 6]),
      conv.strptime(Prefix(row[o + 1], 19)),
      KeyIndex(conv.md5(row[0])))
  }

  predicate AllConverted(f: Fields) {
    && f.fare.Ok? && f.pickupLongitude.Ok? && f.pickupLatitude.Ok?
    && f.dropoffLongitude.Ok? && f.dropoffLatitude.Ok?
    && f.passengerCount.Ok? && f.timestamp.Ok? && f.index.Ok?
  }

  /**
   * A row as a trip: every field its conversion, the key as it is, no
   * hexagons yet; the row fails exactly when one of its conversions does.
   */
  function ToTrip(row: seq<string>, type_: string, conv: Converters): (r: Result<Trip>)
    requires |row| == LayoutWidth(type_)
    ensures var f := Convert(row, type_, conv);
      && (r.Ok? <==> AllConverted(f))
      && (r.Ok? ==>
        && r.value.key == row[0]
        && Ok(r.value.index) == f.index
        && Ok(r.value.pickupDatetime) == f.timestamp
        && Ok(r.value.fareAmount) == f.fare
        && Ok(r.value.pickupLongitude) == f.pickupLongitude && Ok(r.value.pickupLatitude) == f.pickupLatitude
        && Ok(r.value.dropoffLongitude) == f.dropoffLongitude && Ok(r.value.dropoffLatitude) == f.dropoffLatitude
        && Ok(r.value.passengerCount) == f.passengerCount
        && r.value.pickupHexagon.None? && r.value.dropoffHexagon.None?)
  {
    var f := Convert(row, type_, conv);
    if f.fare.Err? then Err(f.fare.error)
    else if f.pickupLongitude.Err? then Err(f.pickupLongitude.error)
    else if f.pickupLatitude.Err? then Err(f.pickupLatitude.error)
    else if f.dropoffLongitude.Err? then Err(f.dropoffLongitude.error)
    else if f.dropoffLatitude.Err? then Err(f.dropoffLatitude.error)
    else if f.passengerCount.Err? then Err(f.passengerCount.error)
    else if f.timestamp.Err? then Err(f.timestamp.error)
    else if f.index.Err? then Err(f.index.error)
    else Ok(Trip(f.index.value, row[0], f.fare.value, f.timestamp.value,
                 f.pickupLongitude.value, f.pickupLatitude.value, f.dropoffLongitude.value, f.dropoffLatitude.value,
                 f.passengerCount.value, None, None))
  }

  /**
   * A loaded trip's index label is below 2^64, its timestamp is parsed
   * from the first 19 characters of the field, and only a train row
   * carries a fare.
   */
  lemma TripFields(row: seq<string>, type_: string, conv: Converters)
    requires |row| == LayoutWidth(type_)
    requires ToTrip(row, type_, conv).Ok?
    ensures var t := ToTrip(row, type_, conv).value;
      && t.index < 0x1_0000_0000_0000_0000
      && Ok(t.index) == KeyIndex(conv.md5(row[0]))
      && Ok(t.pickupDatetime) == conv.strptime(Prefix(row[Offset(type_) + 1], 19))
      && (type_ != "train" ==> t.fareAmount.None?)
      && (type_ == "train" ==> Ok(t.fareAmount) == conv.float32(row[1]))
  {
  }

  /** Every row converted, in order; a row that fails makes the whole file fail with its error. */
  function ConvertRows(rows: seq<seq<string>>, type_: string, conv: Converters): (r: Result<seq<Trip>>)
    requires forall i :: 0 <= i < |rows| ==> |rows[i]| == LayoutWidth(type_)
    ensures r.Ok? <==> forall i :: 0 <= i < |rows| ==> ToTrip(rows[i], type_, conv).Ok?
    ensures r.Ok? ==> |r.value| == |rows| && forall i :: 0 <= i < |rows| ==> ToTrip(rows[i], type_, conv) == Ok(r.value[i])
    ensures r.Err? ==> exists i :: 0 <= i < |rows| && ToTrip(rows[i], type_, conv) == Err(r.error)
  {
    AllOk(rows, (row: seq<string>) requires |row| == LayoutWidth(type_) => ToTrip(row, type_, conv))
  }

  /** `_parse_data` as a whole: read, relabel when there is no header, select, convert. */
  function Parsed(lines: Csv, type_: string, header: Option<nat>, limitLines: Option<int>, conv: Converters): (r: Result<seq<Trip>>)
    ensures r.Ok? ==> SelectedRows(lines, type_, header, limitLines).Ok?
    ensures r.Ok? ==> var rows := SelectedRows(lines, type_, header, limitLines).value;
      |r.value| == |rows| && forall i :: 0 <= i < |rows| ==> ToTrip(rows[i], type_, conv) == Ok(r.value[i])
  {
    match SelectedRows(lines, type_, header, limitLines)
    case Err(e) => Err(e)
    case Ok(rows) => ConvertRows(rows, type_, conv)
  }

  /** The text rows `_parse_data` converts: read, relabelled when there is no header, selected. */
  function SelectedRows(lines: Csv, type_: string, header: Option<nat>, limitLines: Option<int>): (r: Result<seq<seq<string>>>)
    ensures r.Ok? ==> forall i :: 0 <= i < |r.value| ==> |r.value[i]| == LayoutWidth(type_)
  {
    var columns := ColumnLayout(type_);
    match ReadCsv(lines, header, RowLimit(limitLines))
    case Err(e) => Err(e)
    case Ok(df) =>
      var labelled := if header.None? then Relabel(df, columns) else Ok(df);
      match labelled
      case Err(e) => Err(e)
      case Ok(df2) => Select(df2, columns)
  }

  /**
   * `_parse_data`: reads the file, builds the column list (inserting
   * `fare_amount` for a train file), renames the columns when there is no
   * header, selects them, parses the timestamps and sets the index labels.
   */
  method ParseData(lines: Csv, type_: string, header: Option<nat>, limitLines: Option<int>, conv: Converters)
    returns (r: Result<seq<Trip>>)
    ensures r == Parsed(lines, type_, header, limitLines, conv)
  {
    var nrows: Option<nat> := None;
    if limitLines.Some? && limitLines.value > 0 {
      nrows := Some(limitLines.value);
    }
    var read := ReadCsv(lines, header, nrows);
    if read.Err? {
      return Err(read.error);
    }
    var df := read.value;
    var columns := LayoutColumns(type_);
    if header.None? {
      if |columns| != |df.labels| {
        return Err(ValueError("Length mismatch"));
      }
      df := Frame(Named(columns), df.rows);
    }
    var selected := Select(df, columns);
    assert selected == SelectedRows(lines, type_, header, limitLines);
    if selected.Err? {
      return Err(selected.error);
    }
    r := ConvertRows(selected.value, type_, conv);
  }

  /** The column list of `_parse_data`: the base columns, with `fare_amount` inserted at 1 for a train file. */
  method LayoutColumns(type_: string) returns (columns: seq<string>)
    ensures columns == ColumnLayout(type_)
  {
    columns := BaseColumns;
    if type_ == "train" {
      columns := columns[..1] + ["fare_amount"] + columns[1..];
    }
  }

  /**
   * A file read without a header, or with a header line that names the
   * layout's columns in order, gives one trip per data line (within the
   * row limit), the k-th field of the line being the layout's k-th column.
   */
  lemma ParsedByPosition(lines: Csv, type_: string, header: Option<nat>, limitLines: Option<int>, conv: Converters)
    requires lines != []
    requires header.None? ==> |lines[0]| == LayoutWidth(type_)
    requires header.Some? ==> header == Some(0) && lines[0] == ColumnLayout(type_)
    requires Parsed(lines, type_, header, limitLines, conv).Ok?
    ensures var data := Limit(if header.None? then lines else lines[1..], RowLimit(limitLines));
      var trips := Parsed(lines, type_, header, limitLines, conv).value;
      && FitsWidth(data, LayoutWidth(type_))
      && |trips| == |data|
      && forall i :: 0 <= i < |data| ==> ToTrip(Pad(data[i], LayoutWidth(type_)), type_, conv) == Ok(trips[i])
  {
    var columns := ColumnLayout(type_);
    LayoutDistinct(type_);
    var df := ReadCsv(lines, header, RowLimit(limitLines)).value;
    var named := Frame(Named(columns), df.rows);
    if header.Some? {
      assert Named(lines[0]) == Named(columns);
    }
    SelectRelabelled(df.rows, columns);
  }

  /** A file with no line at all is an `EmptyDataError`, whatever the other arguments. */
  lemma EmptyFile(type_: string, header: Option<nat>, limitLines: Option<int>, conv: Converters)
    ensures Parsed([], type_, header, limitLines, conv) == Err(EmptyDataError)
  {
  }

  // ---------------------------------------------------------------------
  // Converting the raw folder

  /** The `_parse_data` arguments `convert_to_parquet` picks for a path. */
  datatype ParseKwargs = ParseKwargs(type_: string, header: Option<nat>)

  /**
   * A path containing "train" is read as a train file, with its first
   * line as header only when the path contains "00.csv"; any other path
   * is read as a test file with a header.
   */
  function KwargsFor(path: string): (k: ParseKwargs)
    ensures Contains(path, "train") ==> k.type_ == "train" && (k.header == Some(0) <==> Contains(path, "00.csv"))
    ensures Contains(path, "train") ==> (k.header.None? <==> !Contains(path, "00.csv"))
    ensures !Contains(path, "train") ==> k.type_ == "test" && k.header == Some(0)
  {
    if Contains(path, "train") then
      if Contains(path, "00.csv") then ParseKwargs("train", Some(0)) else ParseKwargs("train", None)
    else ParseKwargs("test", Some(0))
  }

  /** The parquet file a CSV file is saved to: every ".csv" replaced by ".parquet". */
  function ParquetPath(path: string): string {
    Replace(path, ".csv", ".parquet")
  }

  /** A path whose only ".csv" is its extension gets the ".parquet" extension instead. */
  lemma ParquetExtension(stem: string)
    requires forall i :: 0 <= i < |stem| ==> !IsPrefix(".csv", stem[i..] + ".csv")
    ensures ParquetPath(stem + ".csv") == stem + ".parquet"
  {
    ReplaceSuffix(stem, ".csv", ".parquet");
  }

  /** `glob` with a pattern `prefix*suffix` in one folder: the names that start and end so. */
  predicate MatchesPrefixed(name: string, prefix: string, suffix: string) {
    && '/' !in name
    && |prefix| + |suffix| <= |name|
    && IsPrefix(prefix, name) && EndsWith(name, suffix)
  }

  /** `glob` with a pattern `*infix*suffix`: the visible names holding `infix` before their `suffix`. */
  predicate MatchesInfix(name: string, infix: string, suffix: string) {
    && '/' !in name
    && name != [] && name[0] != '.'
    && EndsWith(name, suffix)
    && Contains(name[..|name| - |suffix|], infix)
  }

  function Filter(names: seq<string>, keep: string -> bool): (r: seq<string>)
    ensures forall x :: x in r <==> x in names && keep(x)
    decreases |names|
  {
    if names == [] then []
    else (if keep(names[0]) then [names[0]] else []) + Filter(names[1..], keep)
  }

  /** The path of a file of the raw folder. */
  function RawPath(rawFolder: string, name: string): string {
    rawFolder + "/" + name
  }

  /** The CSV files `convert_to_parquet` finds, train parts first, then test files. */
  function RawCsvFiles(rawFolder: string, names: seq<string>): seq<string> {
    Paths(rawFolder, Filter(names, (n: string) => MatchesPrefixed(n, "parts_train", ".csv")))
      + Paths(rawFolder, Filter(names, (n: string) => MatchesPrefixed(n, "test", ".csv")))
  }

  /** A raw CSV file parsed with the arguments its path selects and no row limit. */
  function ParseFile(path: string, read: string -> Csv, conv: Converters): Result<seq<Trip>> {
    Parsed(read(path), KwargsFor(path).type_, KwargsFor(path).header, None, conv)
  }

  /**
   * The files written so far, and the error that stopped the conversion if
   * one did; `parse` reads one CSV file.
   */
  function Conversions(paths: seq<string>, parse: string -> Result<seq<Trip>>): (r: (seq<(string, seq<Trip>)>, Option<Error>))
    ensures |r.0| <= |paths|
    ensures r.1.None? ==> |r.0| == |paths|
    decreases |paths|
  {
    if paths == [] then ([], None)
    else
      var before := Conversions(paths[..|paths| - 1], parse);
      if before.1.Some? then before
      else
        var path := paths[|paths| - 1];
        match parse(path)
        case Err(e) => (before.0, Some(e))
        case Ok(trips) => (before.0 + [(ParquetPath(path), trips)], None)
  }

  /** Once a file fails, the files after it are not converted. */
  lemma {:induction false} FailureStops(paths: seq<string>, j: nat, parse: string -> Result<seq<Trip>>)
    requires j <= |paths|
    requires Conversions(paths[..j], parse).1.Some?
    ensures Conversions(paths, parse) == Conversions(paths[..j], parse)
    decreases |paths| - j
  {
    if j < |paths| {
      var init := paths[..|paths| - 1];
      assert init[..j] == paths[..j];
      FailureStops(init, j, parse);
    } else {
      assert paths[..j] == paths;
    }
  }

  /**
   * A conversion without failure writes one parquet file per CSV file, in
   * the order given, each holding the trips parsed from its CSV file.
   */
  lemma {:induction false} ConversionsComplete(paths: seq<string>, parse: string -> Result<seq<Trip>>)
    requires Conversions(paths, parse).1.None?
    ensures |Conversions(paths, parse).0| == |paths|
    ensures forall i :: 0 <= i < |paths| ==>
      && parse(paths[i]).Ok?
      && Conversions(paths, parse).0[i] == (ParquetPath(paths[i]), parse(paths[i]).value)
    decreases |paths|
  {
    if paths != [] {
      var init := paths[..|paths| - 1];
      ConversionsComplete(init, parse);
      var before := Conversions(init, parse).0;
      var after := Conversions(paths, parse).0;
      assert after == before + [(ParquetPath(paths[|paths| - 1]), parse(paths[|paths| - 1]).value)];
      forall i | 0 <= i < |paths|
        ensures parse(paths[i]).Ok?
        ensures after[i] == (ParquetPath(paths[i]), parse(paths[i]).value)
      {
        if i < |init| {
          assert paths[i] == init[i] && after[i] == before[i];
        }
      }
    }
  }

  /**
   * `convert_to_parquet`: the train parts and the test files of the raw
   * folder, in sorted order, each parsed and saved next to itself as
   * parquet; a file that fails to parse stops the conversion.
   */
  method ConvertToParquet(rawFolder: string, names: seq<string>, read: string -> Csv, conv: Converters)
    returns (written: seq<(string, seq<Trip>)>, failure: Option<Error>)
    ensures (written, failure) == Conversions(Sort(RawCsvFiles(rawFolder, names), LexLe), (p: string) => ParseFile(p, read, conv))
  {
    var files := Sort(RawCsvFiles(rawFolder, names), LexLe);
    written, failure := ConvertFiles(files, read, conv);
  }

  /** The loop of `convert_to_parquet` over the CSV files, in the order given. */
  method ConvertFiles(files: seq<string>, read: string -> Csv, conv: Converters)
    returns (written: seq<(string, seq<Trip>)>, failure: Option<Error>)
    ensures (written, failure) == Conversions(files, (p: string) => ParseFile(p, read, conv))
  {
    var parse := (p: string) => ParseFile(p, read, conv);
    written := [];
    failure := None;
    for i := 0 to |files|
      invariant Conversions(files[..i], parse) == (written, None)
    {
      assert files[..i + 1][..i] == files[..i];
      var df := ReadRawFile(files[i], read, conv);
      assert df == parse(files[i]);
      if df.Err? {
        failure := Some(df.error);
        FailureStops(files, i + 1, parse);
        return;
      }
      written := written + [(ParquetPath(files[i]), df.value)];
    }
    assert files[..|files|] == files;
  }

  /** One file of `convert_to_parquet`: the arguments chosen from its path, then `_parse_data`. */
  method ReadRawFile(path: string, read: string -> Csv, conv: Converters) returns (df: Result<seq<Trip>>)
    ensures df == ParseFile(path, read, conv)
  {
    var kwargs := KwargsFor(path);
    df := ParseData(read(path), kwargs.type_, kwargs.header, None, conv);
  }

  /** The files are converted in increasing path order, and they are the matching CSV files. */
  lemma ConversionOrder(rawFolder: string, names: seq<string>)
    ensures SortedBy(Sort(RawCsvFiles(rawFolder, names), LexLe), LexLe)
    ensures multiset(Sort(RawCsvFiles(rawFolder, names), LexLe)) == multiset(RawCsvFiles(rawFolder, names))
  {
    LexIsTotalPreorder();
    SortSorted(RawCsvFiles(rawFolder, names), LexLe);
    SortPermutation(RawCsvFiles(rawFolder, names), LexLe);
  }

  /** The paths of the names a pattern matches, sorted. */
  function SortedMatches(rawFolder: string, names: seq<string>, matches: string -> bool): seq<string> {
    Sort(Paths(rawFolder, Filter(names, matches)), LexLe)
  }

  /** `get_data_files`: the train parquet files and the test parquet files, each list sorted. */
  function DataFiles(rawFolder: string, names: seq<string>): (seq<string>, seq<string>) {
    (SortedMatches(rawFolder, names, (n: string) => MatchesInfix(n, "train", ".parquet")),
     SortedMatches(rawFolder, names, (n: string) => MatchesInfix(n, "test", ".parquet")))
  }

  /**
   * A sorted list of matches is in increasing path order and holds the
   * path of every matching name and nothing else.
   */
  lemma SortedMatchesProperties(rawFolder: string, names: seq<string>, matches: string -> bool)
    ensures SortedBy(SortedMatches(rawFolder, names, matches), LexLe)
    ensures forall n :: n in names && matches(n) ==> RawPath(rawFolder, n) in SortedMatches(rawFolder, names, matches)
    ensures forall p :: p in SortedMatches(rawFolder, names, matches) ==>
      exists n :: n in names && matches(n) && p == RawPath(rawFolder, n)
  {
    var kept := Filter(names, matches);
    var paths := Paths(rawFolder, kept);
    LexIsTotalPreorder();
    SortSorted(paths, LexLe);
    SortPermutation(paths, LexLe);
    assert forall p :: p in Sort(paths, LexLe) <==> p in paths by {
      forall p ensures p in Sort(paths, LexLe) <==> p in paths {
        assert p in multiset(Sort(paths, LexLe)) <==> p in multiset(paths);
      }
    }
    MapMembership(kept, rawFolder);
  }

  /** Both lists of `get_data_files` are sorted and hold exactly the matching parquet files. */
  lemma DataFilesProperties(rawFolder: string, names: seq<string>)
    ensures SortedBy(DataFiles(rawFolder, names).0, LexLe) && SortedBy(DataFiles(rawFolder, names).1, LexLe)
    ensures forall n :: n in names ==>
      (RawPath(rawFolder, n) in DataFiles(rawFolder, names).0 <== MatchesInfix(n, "train", ".parquet"))
    ensures forall n :: n in names ==>
      (RawPath(rawFolder, n) in DataFiles(rawFolder, names).1 <== MatchesInfix(n, "test", ".parquet"))
    ensures forall p :: p in DataFiles(rawFolder, names).0 ==>
      exists n :: n in names && MatchesInfix(n, "train", ".parquet") && p == RawPath(rawFolder, n)
    ensures forall p :: p in DataFiles(rawFolder, names).1 ==>
      exists n :: n in names && MatchesInfix(n, "test", ".parquet") && p == RawPath(rawFolder, n)
  {
    SortedMatchesProperties(rawFolder, names, (n: string) => MatchesInfix(n, "train", ".parquet"));
    SortedMatchesProperties(rawFolder, names, (n: string) => MatchesInfix(n, "test", ".parquet"));
  }

  /** The paths of names of the raw folder. */
  function Paths(rawFolder: string, names: seq<string>): seq<string> {
    Map(names, (n: string) => RawPath(rawFolder, n))
  }

  lemma MapMembership(names: seq<string>, rawFolder: string)
    ensures forall n :: n in names ==> RawPath(rawFolder, n) in Paths(rawFolder, names)
    ensures forall p :: p in Paths(rawFolder, names) ==> exists n :: n in names && p == RawPath(rawFolder, n)
  {
    var paths := Paths(rawFolder, names);
    forall n | n in names ensures RawPath(rawFolder, n) in paths {
      var i :| 0 <= i < |names| && names[i] == n;
      assert paths[i] == RawPath(rawFolder, n);
    }
    forall p | p in paths ensures exists n :: n in names && p == RawPath(rawFolder, n) {
      var i :| 0 <= i < |paths| && paths[i] == p;
      assert names[i] in names;
    }
  }
}
