/** CSV import: validate every data row, then add the ones whose code is new. The report must
    account for every row exactly once although the error list is filled by two loops. */
module CsvImport {
  import opened Options

  /** Cells after strip(). */
  type Line = seq<string>

  datatype Numbers = Numbers(price: real, stock: int, status: int)

  datatype Item = Item(name: string, code: string, price: real, stock: int, category: string, status: int)

  const HEADER: Line := ["product_name", "product_code", "price", "stock", "category", "status"]

  datatype Report = Report(
    total: nat, imported: nat, updated: nat, failed: nat, success: int, errors: seq<nat>)

  datatype Response = NoData | InvalidHeader | Imported(report: Report, added: seq<Item>)

  predicate IsBlank(line: Line) { forall c :: c in line ==> c == "" }

  function NonBlank(lines: seq<Line>): seq<Line> {
    if lines == [] then []
    else
      var n := |lines| - 1;
      NonBlank(lines[..n]) + if IsBlank(lines[n]) then [] else [lines[n]]
  }

  /** Blank lines are dropped, all others kept in order: the k-th line kept is the k-th that is not blank. */
  lemma {:induction false} NonBlankKeeps(lines: seq<Line>, n: nat)
    requires n <= |lines|
    ensures NonBlank(lines) == NonBlank(lines[..n]) + NonBlank(lines[n..])
    ensures n < |lines| && !IsBlank(lines[n]) ==>
      |NonBlank(lines[..n])| < |NonBlank(lines)| && NonBlank(lines)[|NonBlank(lines[..n])|] == lines[n]
    ensures (forall i :: 0 <= i < |lines| ==> IsBlank(lines[i])) ==> NonBlank(lines) == []
  {
    var m := |lines| - 1;
    if n == |lines| {
      assert lines[..n] == lines && lines[n..] == [];
      if lines != [] { NonBlankKeeps(lines[..m], m); }
    } else {
      assert lines[..m][..n] == lines[..n] && lines[..m][n..] == lines[n..][..m - n] && lines[n..][m - n] == lines[m];
      NonBlankKeeps(lines[..m], n);
      if n < m { assert lines[..m][n] == lines[n]; }
    }
  }

  predicate IsWellFormed(i: Item) {
    && 2 <= |i.name| <= 200 && 2 <= |i.code| <= 50 && |i.category| <= 50
    && i.price > 0.0 && i.stock >= 0 && 0 <= i.status <= 1
  }

  /** The cell of a line under a column of the header. */
  function Cell(header: Line, line: Line, column: string): string
    requires |header| == |line|
  {
    if header == [] then ""
    else
      var n := |header| - 1;
      if header[n] == column then line[n] else Cell(header[..n], line[..n], column)
  }

  /** The product a line stands for, if it has the columns, the numbers parse and the limits hold. */
  function Parse(line: Line, convert: Line -> Option<Numbers>): Option<Item> {
    if |line| != |HEADER| then None
    else
      match convert(line)
      case None => None
      case Some(n) =>
        var item := Item(Cell(HEADER, line, "product_name"), Cell(HEADER, line, "product_code"), n.price, n.stock,
                         Cell(HEADER, line, "category"), n.status);
        if IsWellFormed(item) then Some(item) else None
  }

  lemma {:induction false} CellIsUnderColumn(header: Line, line: Line, k: nat)
    requires |header| == |line| && k < |header| && forall i, j :: 0 <= i < j < |header| ==> header[i] != header[j]
    ensures Cell(header, line, header[k]) == line[k]
  {
    var n := |header| - 1;
    if k < n { CellIsUnderColumn(header[..n], line[..n], k); }
  }

  lemma HeaderIsDistinct()
    ensures |HEADER| == 6 && forall i, j :: 0 <= i < j < |HEADER| ==> HEADER[i] != HEADER[j]
    ensures HEADER[0] == "product_name" && HEADER[1] == "product_code" && HEADER[4] == "category"
  {
    assert |HEADER[0]| == 12 && |HEADER[1]| == 12 && |HEADER[2]| == 5 && |HEADER[3]| == 5 && |HEADER[4]| == 8 && |HEADER[5]| == 6;
    assert HEADER[0][8] == 'n' && HEADER[1][8] == 'c' && HEADER[2][0] == 'p' && HEADER[3][0] == 's';
  }

  /** A line gives a product exactly when it has six cells, its numbers parse and all limits hold; the
      product has the name, code and category of the first, second and fifth cell. */
  lemma ParseMeans(line: Line, convert: Line -> Option<Numbers>)
    ensures Parse(line, convert).Some? <==>
      |line| == 6 && convert(line).Some?
      && 2 <= |line[0]| <= 200 && 2 <= |line[1]| <= 50 && |line[4]| <= 50 && convert(line).value.price > 0.0
      && convert(line).value.stock >= 0 && convert(line).value.status in {0, 1}
    ensures Parse(line, convert).Some? ==>
      var n := convert(line).value;
      Parse(line, convert).value == Item(line[0], line[1], n.price, n.stock, line[4], n.status)
  {
    if |line| == 6 {
      HeaderIsDistinct();
      CellIsUnderColumn(HEADER, line, 0);
      CellIsUnderColumn(HEADER, line, 1);
      CellIsUnderColumn(HEADER, line, 4);
    }
  }

  /** A line is to be added: it parses, and its code is not in the catalog yet. */
  predicate IsNew(line: Line, convert: Line -> Option<Numbers>, codes: set<string>) {
    Parse(line, convert).Some? && Parse(line, convert).value.code !in codes
  }

  /** Row numbers count from 2, the line under the header. */
  const FIRST := 2

  /** The items of the new lines, in file order. */
  function NewItems(data: seq<Line>, convert: Line -> Option<Numbers>, codes: set<string>): seq<Item> {
    if data == [] then []
    else
      var n := |data| - 1;
      NewItems(data[..n], convert, codes)
      + if IsNew(data[n], convert, codes) then [Parse(data[n], convert).value] else []
  }

  ghost predicate Distinct(nos: seq<nat>) { forall j, k :: 0 <= j < k < |nos| ==> nos[j] != nos[k] }

  /** The numbers are exactly those of the rows that are not new products. */
  ghost predicate Names(nos: seq<nat>, data: seq<Line>, convert: Line -> Option<Numbers>, codes: set<string>) {
    forall no :: no in nos <==> FIRST <= no < FIRST + |data| && !IsNew(data[no - FIRST], convert, codes)
  }

  /** The report accounts for every data row: added or in error, never both and never twice. */
  ghost predicate Accounts(
    data: seq<Line>, convert: Line -> Option<Numbers>, codes: set<string>, report: Report, added: seq<Item>)
  {
    && added == NewItems(data, convert, codes)
    && report.total == |data| && report.updated == 0
    && report.failed == |report.errors| && Distinct(report.errors)
    && report.success == report.imported == |added| == report.total - report.failed
    && Names(report.errors, data, convert, codes)
  }

  // ---- the two loops ----------------------------------------------------------------------------

  function Unparsed(data: seq<Line>, convert: Line -> Option<Numbers>): seq<nat> {
    if data == [] then []
    else
      var n := |data| - 1;
      Unparsed(data[..n], convert) + if Parse(data[n], convert).None? then [FIRST + n] else []
  }

  function Parsed(data: seq<Line>, convert: Line -> Option<Numbers>): seq<(nat, Item)> {
    if data == [] then []
    else
      var n := |data| - 1;
      var item := Parse(data[n], convert);
      Parsed(data[..n], convert) + if item.Some? then [(FIRST + n, item.value)] else []
  }

  function Clashing(rows: seq<(nat, Item)>, codes: set<string>): seq<nat> {
    if rows == [] then []
    else
      var n := |rows| - 1;
      Clashing(rows[..n], codes) + if rows[n].1.code in codes then [rows[n].0] else []
  }

  function Kept(rows: seq<(nat, Item)>, codes: set<string>): seq<Item> {
    if rows == [] then []
    else
      var n := |rows| - 1;
      Kept(rows[..n], codes) + if rows[n].1.code in codes then [] else [rows[n].1]
  }

  /** First loop: errors and validated rows, both with their row numbers. */
  method Validate(data: seq<Line>, convert: Line -> Option<Numbers>) returns (errors: seq<nat>, validated: seq<(nat, Item)>)
    ensures errors == Unparsed(data, convert) && validated == Parsed(data, convert)
  {
    errors, validated := [], [];
    var i := 0;
    while i < |data|
      invariant 0 <= i <= |data|
      invariant errors == Unparsed(data[..i], convert) && validated == Parsed(data[..i], convert)
    {
      assert data[..i + 1][..i] == data[..i];
      var item := Parse(data[i], convert);
      if item.None? {
        errors := errors + [FIRST + i];
      } else {
        validated := validated + [(FIRST + i, item.value)];
      }
      i := i + 1;
    }
    assert data[..|data|] == data;
  }

  /** Second loop. The catalog is queried as it was before the import: rows added by this import are
      not flushed yet. */
  method AddNew(validated: seq<(nat, Item)>, rowErrors: seq<nat>, codes: set<string>)
    returns (errors: seq<nat>, added: seq<Item>, imported: nat)
    ensures errors == rowErrors + Clashing(validated, codes)
    ensures added == Kept(validated, codes) && imported == |added|
  {
    errors, added, imported := rowErrors, [], 0;
    var k := 0;
    while k < |validated|
      invariant 0 <= k <= |validated|
      invariant errors == rowErrors + Clashing(validated[..k], codes)
      invariant added == Kept(validated[..k], codes) && imported == |added|
    {
      assert validated[..k + 1][..k] == validated[..k];
      var (no, item) := validated[k];
      if item.code in codes {
        errors := errors + [no];
      } else {
        added := added + [item];
        imported := imported + 1;
      }
      k := k + 1;
    }
    assert validated[..|validated|] == validated;
  }

  // ---- what the loops leave ---------------------------------------------------------------------

  /** Row numbers in error after both loops. */
  function Errors(data: seq<Line>, convert: Line -> Option<Numbers>, codes: set<string>): seq<nat> {
    Unparsed(data, convert) + Clashing(Parsed(data, convert), codes)
  }

  lemma ClashingAppend(rows: seq<(nat, Item)>, row: (nat, Item), codes: set<string>)
    ensures Clashing(rows + [row], codes) == Clashing(rows, codes) + if row.1.code in codes then [row.0] else []
    ensures Kept(rows + [row], codes) == Kept(rows, codes) + if row.1.code in codes then [] else [row.1]
  {
    assert (rows + [row])[..|rows|] == rows;
  }

  lemma LastRow(data: seq<Line>, convert: Line -> Option<Numbers>, codes: set<string>)
    requires data != []
    ensures var n := |data| - 1;
      var bad, good := Unparsed(data[..n], convert), Parsed(data[..n], convert);
      var clashing := Clashing(good, codes);
      && Kept(Parsed(data, convert), codes) == Kept(good, codes)
           + (if IsNew(data[n], convert, codes) then [Parse(data[n], convert).value] else [])
      && Errors(data, convert, codes) ==
           if IsNew(data[n], convert, codes) then bad + clashing
           else if Parse(data[n], convert).Some? then bad + (clashing + [FIRST + n])
           else (bad + [FIRST + n]) + clashing
  {
    var n := |data| - 1;
    var bad, good, item := Unparsed(data[..n], convert), Parsed(data[..n], convert), Parse(data[n], convert);
    if item.None? {
      assert Parsed(data, convert) == good;
    } else {
      ClashingAppend(good, (FIRST + n, item.value), codes);
      assert Unparsed(data, convert) == bad;
    }
  }

  lemma DistinctJoin(a: seq<nat>, b: seq<nat>, no: nat)
    requires Distinct(a + b) && no !in a + b
    ensures Distinct((a + [no]) + b) && Distinct(a + (b + [no]))
    ensures forall x :: x in (a + [no]) + b <==> x in a + b || x == no
    ensures forall x :: x in a + (b + [no]) <==> x in a + b || x == no
  {
    assert a + (b + [no]) == (a + b) + [no];
    var c := (a + [no]) + b;
    forall j, k | 0 <= j < k < |c| ensures c[j] != c[k] {
      assert c[j] == if j < |a| then (a + b)[j] else if j == |a| then no else (a + b)[j - 1];
      assert c[k] == if k < |a| then (a + b)[k] else if k == |a| then no else (a + b)[k - 1];
    }
  }

  lemma NamesNext(before: seq<nat>, after: seq<nat>, data: seq<Line>, convert: Line -> Option<Numbers>, codes: set<string>)
    requires data != [] && Names(before, data[..|data| - 1], convert, codes)
    requires if IsNew(data[|data| - 1], convert, codes) then after == before
             else forall x :: x in after <==> x in before || x == FIRST + |data| - 1
    ensures Names(after, data, convert, codes)
  {
    assert forall i :: 0 <= i < |data| - 1 ==> data[..|data| - 1][i] == data[i];
  }

  /** The two loops together name each failing row once. */
  lemma {:induction false} EveryRowOnce(data: seq<Line>, convert: Line -> Option<Numbers>, codes: set<string>)
    ensures Kept(Parsed(data, convert), codes) == NewItems(data, convert, codes)
    ensures |Errors(data, convert, codes)| + |NewItems(data, convert, codes)| == |data|
    ensures Distinct(Errors(data, convert, codes)) && Names(Errors(data, convert, codes), data, convert, codes)
  {
    if data != [] {
      var n := |data| - 1;
      EveryRowOnce(data[..n], convert, codes);
      LastRow(data, convert, codes);
      DistinctJoin(Unparsed(data[..n], convert), Clashing(Parsed(data[..n], convert), codes), FIRST + n);
      NamesNext(Errors(data[..n], convert, codes), Errors(data, convert, codes), data, convert, codes);
    }
  }

  /** Validates all rows, then adds the ones with a new code. */
  method ImportProducts(lines: seq<Line>, convert: Line -> Option<Numbers>, codes: set<string>) returns (r: Response)
    ensures r.NoData? <==> NonBlank(lines) == []
    ensures r.InvalidHeader? <==> NonBlank(lines) != [] && NonBlank(lines)[0] != HEADER
    ensures r.Imported? ==> Accounts(NonBlank(lines)[1..], convert, codes, r.report, r.added)
  {
    var rows := NonBlank(lines);
    if rows == [] {
      return NoData;
    }
    if rows[0] != HEADER {
      return InvalidHeader;
    }
    var data := rows[1..];
    var rowErrors, validated := Validate(data, convert);
    var errors, added, imported := AddNew(validated, rowErrors, codes);
    EveryRowOnce(data, convert, codes);
    r := Imported(Report(|data|, imported, 0, |errors|, |data| - |errors|, errors), added);
  }
}
