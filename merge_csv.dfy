/** The merge step of scripts/merge-csv-data.mjs: every row of a weapon
    spreadsheet either refreshes the stats of the catalog entry whose
    normalised name matches it, or is appended as a new entry. Reading the
    JSON and CSV files and writing the result back are not part of this
    module; a parsed CSV row is given as a map from column header to cell. */
module MergeCsv {
  import opened JsText
  import opened JsValues
  import opened WeaponTypes

  /** A parsed spreadsheet row: column header to cell text. */
  type CsvRow = map<string, string>

  /** `csvRow[column]`: `undefined` when the row has no such column. */
  function Cell(row: CsvRow, column: string): Option<string>
  {
    if column in row then Some(row[column]) else None
  }

  /** The upgrade material that marks a somber weapon. */
  const SomberStones: string := "Somber Smithing Stones"

  /** The description every appended weapon gets. */
  const ImportedDescription: string := "Data imported from spreadsheet."

  /** `normalize`: lower-case, trim, keep only a-z and 0-9; `undefined` stays `undefined`. */
  function Normalize(s: Option<string>): (r: Option<string>)
    ensures r.None? <==> s.None?
    ensures r.Some? ==> forall i :: 0 <= i < |r.value| ==> IsLowerAlnum(r.value[i])
  {
    match s
    case None => None
    case Some(t) => Some(KeepLowerAlnum(Trim(LowerAscii(t))))
  }

  /** `num`: a missing or empty cell and "-" are 0, anything else goes through `Number`.
      Since `Number("")` is 0 as well, only a missing cell and "-" read differently from `Number`. */
  function NumCell(val: Option<string>): (r: JsNumber)
    ensures val.None? || val == Some("-") ==> r == Num(0.0)
    ensures val.Some? && val.value != "-" ==> r == ToNumber(val.value)
  {
    if val.None? || val.value == [] || val.value == "-" then Num(0.0) else ToNumber(val.value)
  }

  /** `csvRow[column] || "-"`: the grade cell, "-" when missing or empty. */
  function TierCell(val: Option<string>): string
  {
    if val.None? || val.value == [] then "-" else val.value
  }

  /** The `damage` object a row carries; critical defaults to 100, so it is never 0 or NaN. */
  function RowDamage(row: CsvRow): (d: Damage)
    ensures IsTruthy(d.critical)
  {
    Damage(
      NumCell(Cell(row, "Phy")),
      NumCell(Cell(row, "Mag")),
      NumCell(Cell(row, "Fir")),
      NumCell(Cell(row, "Lit")),
      NumCell(Cell(row, "Hol")),
      OrDefault(NumCell(Cell(row, "Cri")), 100.0))
  }

  /** The `scaling` array a row carries: one entry per attribute, read from the column of the same name. */
  function RowScaling(row: CsvRow): seq<Scaling>
  {
    seq(5, i requires 0 <= i < 5 => Scaling(Attributes[i], TierCell(Cell(row, AttributeName(Attributes[i])))))
  }

  function RowWeight(row: CsvRow): JsNumber
  {
    NumCell(Cell(row, "Wgt"))
  }

  predicate RowIsSomber(row: CsvRow)
  {
    Cell(row, "Upgrade") == Some(SomberStones)
  }

  /** The catalog entry with the row's damage, scaling, weight and somber flag written over it. */
  function UpdateWeapon(w: Weapon, row: CsvRow): (r: Weapon)
    ensures SameIdentity(r, w)
    ensures Matches(r, row) <==> Matches(w, row)
  {
    w.(damage := RowDamage(row), scaling := RowScaling(row), weight := RowWeight(row), isSomber := RowIsSomber(row))
  }

  /** The entry appended for a row that matches nothing. */
  function NewWeapon(row: CsvRow): (w: Weapon)
    ensures Matches(w, row) && w.requirements == []
  {
    var name := Cell(row, "Name");
    Weapon(
      Normalize(name), name, Cell(row, "Type"), RowWeight(row), Some([]), Some(ImportedDescription),
      RowDamage(row), RowScaling(row), [], RowIsSomber(row))
  }

  /** `jsonData.findIndex(w => normalize(w.name) === normalize(csvRow["Name"]))`. */
  function FindMatch(data: seq<Weapon>, row: CsvRow): (k: int)
    ensures -1 <= k < |data|
  {
    var key := Normalize(Cell(row, "Name"));
    FindIndex(data, (w: Weapon) => Normalize(w.name) == key)
  }

  predicate Matches(w: Weapon, row: CsvRow)
  {
    Normalize(w.name) == Normalize(Cell(row, "Name"))
  }

  /** The catalog after one row: the first match updated in place, or the new entry pushed. */
  function MergeRow(data: seq<Weapon>, row: CsvRow): (r: seq<Weapon>)
    ensures |r| == |data| + (if FindMatch(data, row) == -1 then 1 else 0)
    ensures forall j :: 0 <= j < |data| ==> SameIdentity(r[j], data[j])
  {
    var k := FindMatch(data, row);
    if k != -1 then data[k := UpdateWeapon(data[k], row)] else data + [NewWeapon(row)]
  }

  /** The catalog after the rows, taken in order: it grows by at most one entry per row, and
      every entry it started with keeps its identity. */
  function MergeAll(data: seq<Weapon>, rows: seq<CsvRow>): (r: seq<Weapon>)
    ensures |data| <= |r| <= |data| + |rows|
    ensures forall j :: 0 <= j < |data| ==> SameIdentity(r[j], data[j])
  {
    if rows == [] then data else MergeRow(MergeAll(data, rows[..|rows| - 1]), rows[|rows| - 1])
  }

  /** How many of the rows were appended rather than matched (`newCount`). */
  function NewCount(data: seq<Weapon>, rows: seq<CsvRow>): nat
  {
    if rows == [] then 0
    else
      var before := MergeAll(data, rows[..|rows| - 1]);
      NewCount(data, rows[..|rows| - 1]) + (if FindMatch(before, rows[|rows| - 1]) == -1 then 1 else 0)
  }

  /** Merging one more row extends both the catalog and the count by that row. */
  lemma MergePrefix(data: seq<Weapon>, rows: seq<CsvRow>, i: nat)
    requires i < |rows|
    ensures MergeAll(data, rows[..i + 1]) == MergeRow(MergeAll(data, rows[..i]), rows[i])
    ensures NewCount(data, rows[..i + 1])
            == NewCount(data, rows[..i]) + (if FindMatch(MergeAll(data, rows[..i]), rows[i]) == -1 then 1 else 0)
  {
    assert rows[..i + 1][..i] == rows[..i];
  }

  /** The `forEach` over the rows, with the two counters. */
  method Merge(jsonData: seq<Weapon>, rows: seq<CsvRow>) returns (data: seq<Weapon>, updatedCount: nat, newCount: nat)
    ensures data == MergeAll(jsonData, rows)
    ensures newCount == NewCount(jsonData, rows)
    ensures updatedCount + newCount == |rows|
    ensures |data| == |jsonData| + newCount
  {
    data, updatedCount, newCount := jsonData, 0, 0;
    for i := 0 to |rows|
      invariant data == MergeAll(jsonData, rows[..i])
      invariant newCount == NewCount(jsonData, rows[..i])
      invariant updatedCount + newCount == i
    {
      MergePrefix(jsonData, rows, i);
      var existingIndex := FindMatch(data, rows[i]);
      if existingIndex != -1 {
        data := data[existingIndex := UpdateWeapon(data[existingIndex], rows[i])];
        updatedCount := updatedCount + 1;
      } else {
        data := data + [NewWeapon(rows[i])];
        newCount := newCount + 1;
      }
    }
    assert rows[..|rows|] == rows;
    MergeLength(jsonData, rows);
  }

  // ---- normalize ----

  /** Trimming inside `normalize` changes nothing: it is lower-casing followed by the filter. */
  lemma NormalizeIsLowerFilter(s: string)
    ensures Normalize(Some(s)) == Some(KeepLowerAlnum(LowerAscii(s)))
  {
    TrimIsInvisible(LowerAscii(s));
  }

  /** Normalising twice is normalising once. */
  lemma NormalizeIdempotent(s: Option<string>)
    ensures Normalize(Normalize(s)) == Normalize(s)
  {
    if s.Some? {
      var r := Normalize(s).value;
      LowerAlnumIsFixed(r);
      assert forall i :: 0 <= i < |r| ==> !IsSpace(r[i]);
      assert Trim(LowerAscii(r)) == r;
    }
  }

  /** Names that differ only in letter case normalise alike. */
  lemma NormalizeCaseBlind(s: string, t: string)
    requires |s| == |t| && forall i :: 0 <= i < |s| ==> LowerChar(s[i]) == LowerChar(t[i])
    ensures Normalize(Some(s)) == Normalize(Some(t))
  {
    assert LowerAscii(s) == LowerAscii(t);
  }

  /** Dropping a space or a punctuation character does not change the normalised name. */
  lemma NormalizeDropsPunctuation(a: string, c: char, b: string)
    requires !IsLowerAlnum(c) && !IsUpper(c)
    ensures Normalize(Some(a + [c] + b)) == Normalize(Some(a + b))
  {
    NormalizeIsLowerFilter(a + [c] + b);
    NormalizeIsLowerFilter(a + b);
    LowerAsciiConcat(a + [c], b);
    LowerAsciiConcat(a, [c]);
    LowerAsciiConcat(a, b);
    KeepLowerAlnumConcat(LowerAscii(a) + LowerAscii([c]), LowerAscii(b));
    KeepLowerAlnumConcat(LowerAscii(a), LowerAscii([c]));
    KeepLowerAlnumConcat(LowerAscii(a), LowerAscii(b));
    assert KeepLowerAlnum(LowerAscii([c])) == [];
    assert KeepLowerAlnum(LowerAscii(a)) + [] == KeepLowerAlnum(LowerAscii(a));
  }

  // ---- cells ----

  /** `num` gives 0 for a missing cell, an empty cell and "-", and reads a decimal cell back as its value. */
  lemma NumCellValues(n: nat)
    ensures NumCell(None) == Num(0.0) && NumCell(Some("")) == Num(0.0) && NumCell(Some("-")) == Num(0.0)
    ensures NumCell(Some(NatToDecimal(n))) == Num(n as real)
  {
    var s := NatToDecimal(n);
    assert IsDigit(s[0]);
    assert s != "-";
    ToNumberRoundTrip(n);
  }

  /** A row's scaling has five entries, Str to Arc, each grade copied from the column of that
      name, or "-" when the cell is missing or empty. */
  lemma RowScalingEntries(row: CsvRow)
    ensures |RowScaling(row)| == 5
    ensures forall i :: 0 <= i < 5 ==> RowScaling(row)[i].attribute == Attributes[i]
    ensures forall i :: 0 <= i < 5 ==>
              var cell := Cell(row, AttributeName(Attributes[i]));
              RowScaling(row)[i].tier == (if cell.Some? && cell.value != [] then cell.value else "-")
  {
  }

  /** Critical is 100 when the Cri cell is missing, empty, "-", zero or not a number. */
  lemma RowCritical(row: CsvRow)
    ensures RowDamage(row).critical.Num?
    ensures !IsTruthy(NumCell(Cell(row, "Cri"))) ==> RowDamage(row).critical == Num(100.0)
    ensures Cell(row, "Cri").None? ==> RowDamage(row).critical == Num(100.0)
    ensures IsTruthy(NumCell(Cell(row, "Cri"))) ==> RowDamage(row).critical == NumCell(Cell(row, "Cri"))
  {
  }

  // ---- one row ----

  /** The fields an update leaves alone. */
  predicate SameIdentity(a: Weapon, b: Weapon)
  {
    a.id == b.id && a.name == b.name && a.category == b.category && a.image == b.image
    && a.description == b.description && a.requirements == b.requirements
  }

  /** An update keeps id, name, category, image, description and requirements, takes damage,
      scaling, weight and the somber flag from the row, and applying it twice is applying it once. */
  lemma UpdateOverwritesStats(w: Weapon, row: CsvRow)
    ensures SameIdentity(UpdateWeapon(w, row), w)
    ensures UpdateWeapon(w, row).damage == RowDamage(row) && UpdateWeapon(w, row).scaling == RowScaling(row)
    ensures UpdateWeapon(w, row).weight == RowWeight(row)
    ensures UpdateWeapon(w, row).isSomber <==> Cell(row, "Upgrade") == Some(SomberStones)
    ensures UpdateWeapon(UpdateWeapon(w, row), row) == UpdateWeapon(w, row)
  {
  }

  /** An appended entry: id the normalised name, no requirements, no image, the fixed description,
      the somber flag from the Upgrade cell, and it matches its own row. */
  lemma NewWeaponFields(row: CsvRow)
    ensures NewWeapon(row).id == Normalize(Cell(row, "Name")) && NewWeapon(row).name == Cell(row, "Name")
    ensures NewWeapon(row).requirements == [] && NewWeapon(row).image == Some("")
    ensures NewWeapon(row).description == Some("Data imported from spreadsheet.")
    ensures NewWeapon(row).isSomber <==> Cell(row, "Upgrade") == Some("Somber Smithing Stones")
    ensures Matches(NewWeapon(row), row)
  {
  }

  /** A row updates the first entry whose normalised name equals its own. */
  lemma MergeRowUpdatesFirstMatch(data: seq<Weapon>, row: CsvRow, k: nat)
    requires k < |data| && Matches(data[k], row)
    requires forall j :: 0 <= j < k ==> !Matches(data[j], row)
    ensures MergeRow(data, row) == data[k := UpdateWeapon(data[k], row)]
  {
    var key := Normalize(Cell(row, "Name"));
    var p := (w: Weapon) => Normalize(w.name) == key;
    assert p(data[k]);
    assert forall j :: 0 <= j < k ==> !p(data[j]);
  }

  /** A row that matches no entry is appended as a new one. */
  lemma MergeRowAppends(data: seq<Weapon>, row: CsvRow)
    requires forall j :: 0 <= j < |data| ==> !Matches(data[j], row)
    ensures MergeRow(data, row) == data + [NewWeapon(row)]
  {
    var key := Normalize(Cell(row, "Name"));
    var p := (w: Weapon) => Normalize(w.name) == key;
    assert forall j :: 0 <= j < |data| ==> !p(data[j]);
  }

  /** Every entry but the updated one is untouched. */
  lemma MergeRowFrame(data: seq<Weapon>, row: CsvRow)
    ensures forall j :: 0 <= j < |data| && j != FindMatch(data, row) ==> MergeRow(data, row)[j] == data[j]
  {
  }

  /** After a row is merged, some entry carries its normalised name: the one it updated or the one it appended. */
  lemma MatchAfterRow(data: seq<Weapon>, row: CsvRow)
    ensures exists m :: 0 <= m < |MergeRow(data, row)| && Matches(MergeRow(data, row)[m], row)
  {
    var merged := MergeRow(data, row);
    var k := FindMatch(data, row);
    var key := Normalize(Cell(row, "Name"));
    var p := (w: Weapon) => Normalize(w.name) == key;
    if k != -1 {
      assert p(data[k]);
      assert merged[k].name == data[k].name;
      assert Matches(merged[k], row);
    } else {
      assert merged[|data|] == NewWeapon(row);
      assert Matches(merged[|data|], row);
    }
  }

  // ---- all rows ----

  /** `updatedCount + newCount` is the number of rows, and the catalog grows by `newCount`. */
  lemma {:induction false} MergeLength(data: seq<Weapon>, rows: seq<CsvRow>)
    ensures NewCount(data, rows) <= |rows|
    ensures |MergeAll(data, rows)| == |data| + NewCount(data, rows)
  {
    if rows != [] {
      var init := rows[..|rows| - 1];
      MergeLength(data, init);
    }
  }

  /** Once row `i` is merged, an entry with its normalised name stays in the catalog through every later row. */
  lemma {:induction false} MatchPersists(data: seq<Weapon>, rows: seq<CsvRow>, i: nat, j: nat)
    requires i < j <= |rows|
    ensures exists m :: 0 <= m < |MergeAll(data, rows[..j])| && Matches(MergeAll(data, rows[..j])[m], rows[i])
  {
    if j == i + 1 {
      MergePrefix(data, rows, i);
      MatchAfterRow(MergeAll(data, rows[..i]), rows[i]);
    } else {
      MatchPersists(data, rows, i, j - 1);
      var before := MergeAll(data, rows[..j - 1]);
      var m :| 0 <= m < |before| && Matches(before[m], rows[i]);
      MergePrefix(data, rows, j - 1);
      var after := MergeRow(before, rows[j - 1]);
      assert SameIdentity(after[m], before[m]);
      assert Matches(after[m], rows[i]);
    }
  }

  /** A row whose normalised name equals that of any earlier row finds an entry, so it updates
      instead of appending: the catalog and `newCount` stay as they were. */
  lemma LaterSameNameUpdates(data: seq<Weapon>, rows: seq<CsvRow>, i: nat, j: nat)
    requires i < j < |rows|
    requires Normalize(Cell(rows[j], "Name")) == Normalize(Cell(rows[i], "Name"))
    ensures FindMatch(MergeAll(data, rows[..j]), rows[j]) != -1
    ensures |MergeAll(data, rows[..j + 1])| == |MergeAll(data, rows[..j])|
    ensures NewCount(data, rows[..j + 1]) == NewCount(data, rows[..j])
  {
    MatchPersists(data, rows, i, j);
    var before := MergeAll(data, rows[..j]);
    var m :| 0 <= m < |before| && Matches(before[m], rows[i]);
    var key := Normalize(Cell(rows[j], "Name"));
    var p := (w: Weapon) => Normalize(w.name) == key;
    assert p(before[m]);
    MergePrefix(data, rows, j);
  }

  /** Rows that all carry the same normalised name append at most one entry between them. */
  lemma {:induction false} NoDuplicateAppend(data: seq<Weapon>, rows: seq<CsvRow>)
    requires forall j :: 0 <= j < |rows| ==> Normalize(Cell(rows[j], "Name")) == Normalize(Cell(rows[0], "Name"))
    ensures NewCount(data, rows) <= 1
  {
    if |rows| > 1 {
      var init := rows[..|rows| - 1];
      NoDuplicateAppend(data, init);
      LaterSameNameUpdates(data, rows, 0, |rows| - 1);
    } else if |rows| == 1 {
      assert rows[..0] == [];
    }
  }

}
