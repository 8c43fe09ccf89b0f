/**
 * The parsers of Elasticsearch's cat tables (pkg/k8shandler/elasticsearch.go): lines split on
 * single spaces, empty fields dropped, and rows with the wrong number of fields ignored.
 * strconv.ParseFloat is a parameter; letters are upper-cased as in ASCII.
 */
module CatTable {
  import opened Base
  import opened Text

  const NEWLINE := '\n'
  const SPACE := ' '

  /** strconv.ParseFloat; None is an error. */
  type Float = string -> Option<real>

  /** A number that cannot be parsed reads as -1. */
  function Number(parse: Float, s: string): real {
    match parse(s)
    case Some(x) => x
    case None => -1.0
  }

  function NonEmpty(parts: seq<string>): seq<string> {
    if parts == [] then []
    else NonEmpty(parts[..|parts| - 1]) + if |parts[|parts| - 1]| > 0 then [parts[|parts| - 1]] else []
  }

  function Fields(line: string): seq<string> {
    NonEmpty(Split(line, SPACE))
  }

  /** Every row has the same number of fields. */
  predicate Wide(rows: seq<seq<string>>, width: nat) {
    forall i :: 0 <= i < |rows| ==> |rows[i]| == width
  }

  /** The rows of a table: the fields of the lines that have exactly width of them. */
  function RowsOf(lines: seq<string>, width: nat): (rows: seq<seq<string>>)
    ensures Wide(rows, width)
  {
    if lines == [] then []
    else
      var fields := Fields(lines[|lines| - 1]);
      RowsOf(lines[..|lines| - 1], width) + if |fields| == width then [fields] else []
  }

  function Rows(text: string, width: nat): (rows: seq<seq<string>>)
    ensures Wide(rows, width)
  {
    RowsOf(Split(text, NEWLINE), width)
  }

  /** A map from the key column to the rest of the row; a later row with the same key wins. */
  function Table<V>(rows: seq<seq<string>>, width: nat, key: nat, value: seq<string> -> V): map<string, V>
    requires key < width && Wide(rows, width)
  {
    if rows == [] then map[]
    else
      var last := rows[|rows| - 1];
      Table(rows[..|rows| - 1], width, key, value)[last[key] := value(last)]
  }

  lemma TableAppend<V>(rows: seq<seq<string>>, row: seq<string>, width: nat, key: nat, value: seq<string> -> V)
    requires key < width && Wide(rows, width) && |row| == width
    ensures Wide(rows + [row], width)
    ensures Table(rows + [row], width, key, value) == Table(rows, width, key, value)[row[key] := value(row)]
  {
    assert (rows + [row])[..|rows|] == rows;
  }

  lemma RowsAppend(lines: seq<string>, i: nat, width: nat)
    requires i < |lines|
    ensures RowsOf(lines[..i + 1], width)
         == if |Fields(lines[i])| == width then RowsOf(lines[..i], width) + [Fields(lines[i])] else RowsOf(lines[..i], width)
  {
    assert lines[..i + 1][..i] == lines[..i];
  }

  // ----- disk usage -----

  datatype Usage = Usage(used: string, percent: real)

  function ToUpper(s: string): (r: string)
    ensures |r| == |s|
  {
    seq(|s|, i requires 0 <= i < |s| => if 'a' <= s[i] <= 'z' then s[i] - 'a' + 'A' else s[i])
  }

  /** strings.TrimSuffix(s, "b"). */
  function TrimB(s: string): string {
    if s != "" && s[|s| - 1] == 'b' then s[..|s| - 1] else s
  }

  function DiskRow(parse: Float): seq<string> -> Usage {
    (row: seq<string>) => if |row| == 3 then Usage(ToUpper(TrimB(row[1])), Number(parse, row[2])) else Usage("", -1.0)
  }

  /** The inner loop of both parsers. */
  method SplitFields(line: string) returns (fields: seq<string>)
    ensures fields == Fields(line)
  {
    fields := [];
    var parts := Split(line, SPACE);
    for i := 0 to |parts|
      invariant fields == NonEmpty(parts[..i])
    {
      assert parts[..i + 1][..i] == parts[..i];
      if |parts[i]| > 0 {
        fields := fields + [parts[i]];
      }
    }
    assert parts[..|parts|] == parts;
  }

  method ParseNodeDiskUsage(results: string, parse: Float) returns (usage: map<string, Usage>)
    ensures usage == Table(Rows(results, 3), 3, 0, DiskRow(parse))
  {
    hide Fields, RowsOf, Split, Table;
    usage := map[];
    var lines := Split(results, NEWLINE);
    EmptyTable(lines, 3, 0, DiskRow(parse));
    for i := 0 to |lines|
      invariant usage == Table(RowsOf(lines[..i], 3), 3, 0, DiskRow(parse))
    {
      var fields := SplitFields(lines[i]);
      RowsAppend(lines, i, 3);
      if |fields| == 3 {
        var percent := Number(parse, fields[2]);
        TableAppend(RowsOf(lines[..i], 3), fields, 3, 0, DiskRow(parse));
        usage := usage[fields[0] := Usage(ToUpper(TrimB(fields[1])), percent)];
      }
    }
    assert lines[..|lines|] == lines;
  }

  lemma EmptyTable<V>(lines: seq<string>, width: nat, key: nat, value: seq<string> -> V)
    requires key < width
    ensures Table(RowsOf(lines[..0], width), width, key, value) == map[]
  {
  }

  // ----- index health -----

  datatype IndexHealth = IndexHealth(health: string, status: string, primary: real, replicas: real)

  function IndexRow(parse: Float): seq<string> -> IndexHealth {
    (row: seq<string>) =>
      if |row| == 5 then IndexHealth(row[0], row[1], Number(parse, row[3]), Number(parse, row[4]))
      else IndexHealth("", "", -1.0, -1.0)
  }

  method ParseIndexHealth(results: string, parse: Float) returns (health: map<string, IndexHealth>)
    ensures health == Table(Rows(results, 5), 5, 2, IndexRow(parse))
  {
    hide Fields, RowsOf, Split, Table;
    health := map[];
    var lines := Split(results, NEWLINE);
    EmptyTable(lines, 5, 2, IndexRow(parse));
    for i := 0 to |lines|
      invariant health == Table(RowsOf(lines[..i], 5), 5, 2, IndexRow(parse))
    {
      var fields := SplitFields(lines[i]);
      RowsAppend(lines, i, 5);
      if |fields| == 5 {
        var primary := Number(parse, fields[3]);
        var replicas := Number(parse, fields[4]);
        TableAppend(RowsOf(lines[..i], 5), fields, 5, 2, IndexRow(parse));
        health := health[fields[2] := IndexHealth(fields[0], fields[1], primary, replicas)];
      }
    }
    assert lines[..|lines|] == lines;
  }

  // ----- every rendering -----

  /** A line of a table: fields with padding around them, or any line without the right number of fields. */
  datatype Line = Row(fields: seq<string>, pads: seq<nat>) | Noise(text: string)

  predicate GoodField(s: string) {
    s != "" && SPACE !in s && NEWLINE !in s
  }

  /** Any padding, but at least one space between fields. */
  predicate WellPadded(fields: seq<string>, pads: seq<nat>) {
    && |pads| == |fields| + 1
    && (forall i :: 0 <= i < |fields| ==> GoodField(fields[i]))
    && forall i :: 0 < i < |fields| ==> pads[i] > 0
  }

  predicate GoodLine(l: Line, width: nat) {
    match l
    case Row(fields, pads) => |fields| == width && WellPadded(fields, pads)
    case Noise(text) => NEWLINE !in text && |Fields(text)| != width
  }

  function Spaces(n: nat): (s: string)
    ensures |s| == n && forall i :: 0 <= i < n ==> s[i] == SPACE
  {
    seq(n, _ => SPACE)
  }

  function Pad(fields: seq<string>, pads: seq<nat>): string
    requires |pads| == |fields| + 1
  {
    if fields == [] then Spaces(pads[0]) else Spaces(pads[0]) + (fields[0] + Pad(fields[1..], pads[1..]))
  }

  function Render(l: Line): string
    requires l.Row? ==> |l.pads| == |l.fields| + 1
  {
    if l.Row? then Pad(l.fields, l.pads) else l.text
  }

  predicate GoodTable(table: seq<Line>, width: nat) {
    forall i :: 0 <= i < |table| ==> GoodLine(table[i], width)
  }

  function RenderLines(table: seq<Line>, width: nat): (r: seq<string>)
    requires GoodTable(table, width)
    ensures |r| == |table| && forall i :: 0 <= i < |table| ==> GoodLine(table[i], width) && r[i] == Render(table[i])
  {
    seq(|table|, i requires 0 <= i < |table| => assert GoodLine(table[i], width); Render(table[i]))
  }

  function Join(lines: seq<string>): string
    requires lines != []
  {
    if |lines| == 1 then lines[0] else lines[0] + [NEWLINE] + Join(lines[1..])
  }

  /** The text of a table; a trailing newline is an empty line of noise. */
  function Print(table: seq<Line>, width: nat): string
    requires table != [] && GoodTable(table, width)
  {
    Join(RenderLines(table, width))
  }

  /** What the table says: the fields of its rows, in order. */
  function Content(table: seq<Line>, width: nat): (rows: seq<seq<string>>)
    requires GoodTable(table, width)
    ensures Wide(rows, width)
  {
    if table == [] then []
    else
      var last := table[|table| - 1];
      assert GoodLine(last, width);
      Content(table[..|table| - 1], width) + if last.Row? then [last.fields] else []
  }

  lemma {:induction false} NonEmptyConcatenate(a: seq<string>, b: seq<string>)
    ensures NonEmpty(a + b) == NonEmpty(a) + NonEmpty(b)
  {
    if b == [] {
      assert a + b == a;
    } else {
      var n := |b| - 1;
      assert (a + b)[..|a| + n] == a + b[..n];
      NonEmptyConcatenate(a, b[..n]);
    }
  }

  lemma NonEmptyOne(s: string)
    ensures NonEmpty([s]) == if |s| > 0 then [s] else []
  {
    assert NonEmpty([s][..0]) == [];
  }

  /** A word, then a space. */
  lemma FieldsWord(word: string, rest: string)
    requires SPACE !in word
    ensures Fields(word + [SPACE] + rest) == (if word == "" then [] else [word]) + Fields(rest)
  {
    SplitFirst(word, SPACE, rest);
    NonEmptyConcatenate([word], Split(rest, SPACE));
    NonEmptyOne(word);
  }

  lemma FieldsLast(word: string)
    requires SPACE !in word
    ensures Fields(word) == if word == "" then [] else [word]
  {
    SplitWhole(word, SPACE);
    NonEmptyOne(word);
  }

  lemma {:induction false} FieldsSpaces(n: nat, rest: string)
    ensures Fields(Spaces(n) + rest) == Fields(rest)
  {
    if n == 0 {
      assert Spaces(0) + rest == rest;
    } else {
      FieldsSpaces(n - 1, rest);
      assert Spaces(n) + rest == "" + [SPACE] + (Spaces(n - 1) + rest);
      FieldsWord("", Spaces(n - 1) + rest);
    }
  }

  /** Splitting a padded row gives back its fields. */
  lemma {:induction false} FieldsOfPad(fields: seq<string>, pads: seq<nat>)
    requires WellPadded(fields, pads)
    ensures Fields(Pad(fields, pads)) == fields
  {
    hide Fields;
    if fields == [] {
      FieldsSpaces(pads[0], "");
      FieldsLast("");
      assert Spaces(pads[0]) + "" == Spaces(pads[0]);
    } else {
      var word, rest := fields[0], Pad(fields[1..], pads[1..]);
      FieldsOfPad(fields[1..], pads[1..]);
      FieldsSpaces(pads[0], word + rest);
      assert GoodField(word);
      if rest == "" {
        assert word + rest == word;
        FieldsLast(word);
        FieldsLast("");
      } else {
        var tail := rest[1..];
        assert rest == "" + [SPACE] + tail by {
          PadStartsWithSpace(fields[1..], pads[1..]);
        }
        FieldsWord("", tail);
        assert word + rest == word + [SPACE] + tail;
        FieldsWord(word, tail);
      }
      assert [word] + fields[1..] == fields;
    }
  }

  lemma PadStartsWithSpace(fields: seq<string>, pads: seq<nat>)
    requires |pads| == |fields| + 1 && (fields == [] || pads[0] > 0)
    ensures Pad(fields, pads) != "" ==> Pad(fields, pads)[0] == SPACE
  {
  }

  lemma {:induction false} PadHasNoNewline(fields: seq<string>, pads: seq<nat>)
    requires WellPadded(fields, pads)
    ensures NEWLINE !in Pad(fields, pads)
  {
    if fields != [] {
      PadHasNoNewline(fields[1..], pads[1..]);
      assert GoodField(fields[0]);
    }
  }

  lemma {:induction false} SplitJoin(lines: seq<string>)
    requires lines != [] && forall i :: 0 <= i < |lines| ==> NEWLINE !in lines[i]
    ensures Split(Join(lines), NEWLINE) == lines
  {
    if |lines| == 1 {
      SplitWhole(lines[0], NEWLINE);
    } else {
      SplitJoin(lines[1..]);
      SplitFirst(lines[0], NEWLINE, Join(lines[1..]));
    }
  }

  /** The parsers' rows are exactly the table's, whatever its padding and noise. */
  lemma RowsInvertRendering(table: seq<Line>, width: nat)
    requires table != [] && GoodTable(table, width)
    ensures Rows(Print(table, width), width) == Content(table, width)
  {
    hide Fields, Split, Pad, WellPadded, Join, RowsOf;
    var lines := RenderLines(table, width);
    forall i | 0 <= i < |table| ensures NEWLINE !in lines[i] {
      assert GoodLine(table[i], width);
      if table[i].Row? {
        PadHasNoNewline(table[i].fields, table[i].pads);
      }
    }
    SplitJoin(lines);
    RowsOfRendered(table, width);
  }

  lemma {:induction false} RowsOfRendered(table: seq<Line>, width: nat)
    requires GoodTable(table, width)
    ensures RowsOf(RenderLines(table, width), width) == Content(table, width)
  {
    hide Fields, Pad;
    if table != [] {
      var n := |table| - 1;
      RowsOfRendered(table[..n], width);
      assert RenderLines(table, width)[..n] == RenderLines(table[..n], width);
      assert GoodLine(table[n], width);
      if table[n].Row? {
        FieldsOfPad(table[n].fields, table[n].pads);
      }
    }
  }

  /** No two rows have the same key. */
  ghost predicate DistinctKeys(rows: seq<seq<string>>, width: nat, key: nat)
    requires key < width && Wide(rows, width)
  {
    forall i, j :: 0 <= i < j < |rows| ==> rows[i][key] != rows[j][key]
  }

  lemma {:induction false} TableKeys<V>(rows: seq<seq<string>>, width: nat, key: nat, value: seq<string> -> V, k: string)
    requires key < width && Wide(rows, width)
    ensures k in Table(rows, width, key, value) <==> exists i :: 0 <= i < |rows| && rows[i][key] == k
  {
    if rows != [] {
      var n := |rows| - 1;
      TableKeys(rows[..n], width, key, value, k);
      if i :| 0 <= i < |rows| && rows[i][key] == k {
        if i < n {
          assert rows[..n][i][key] == k;
        }
      }
      if i :| 0 <= i < n && rows[..n][i][key] == k {
        assert rows[i][key] == k;
      }
    }
  }

  lemma {:induction false} TableEntry<V>(rows: seq<seq<string>>, width: nat, key: nat, value: seq<string> -> V, i: nat)
    requires key < width && Wide(rows, width) && DistinctKeys(rows, width, key) && i < |rows|
    ensures rows[i][key] in Table(rows, width, key, value)
    ensures Table(rows, width, key, value)[rows[i][key]] == value(rows[i])
  {
    var n := |rows| - 1;
    if i < n {
      TableEntry(rows[..n], width, key, value, i);
    }
  }

  lemma {:induction false} TableSize<V>(rows: seq<seq<string>>, width: nat, key: nat, value: seq<string> -> V)
    requires key < width && Wide(rows, width) && DistinctKeys(rows, width, key)
    ensures |Table(rows, width, key, value)| == |rows|
  {
    if rows != [] {
      var n := |rows| - 1;
      TableSize(rows[..n], width, key, value);
      TableKeys(rows[..n], width, key, value, rows[n][key]);
      var before := Table(rows[..n], width, key, value);
      assert rows[n][key] !in before;
    }
  }

  /**
   * parseNodeDiskUsage inverts every rendering of a table with distinct names: one entry per
   * row, with that row's usage and percentage, and nothing else.
   */
  lemma DiskUsageInvertsRendering(table: seq<Line>, parse: Float)
    requires table != [] && GoodTable(table, 3) && DistinctKeys(Content(table, 3), 3, 0)
    ensures var rows, usage := Content(table, 3), Table(Rows(Print(table, 3), 3), 3, 0, DiskRow(parse));
            && |usage| == |rows|
            && forall i :: 0 <= i < |rows| ==>
                 && rows[i][0] in usage
                 && usage[rows[i][0]] == Usage(ToUpper(TrimB(rows[i][1])), Number(parse, rows[i][2]))
  {
    hide Table, Content, Print, Rows;
    var rows := Content(table, 3);
    RowsInvertRendering(table, 3);
    TableSize(rows, 3, 0, DiskRow(parse));
    forall i | 0 <= i < |rows|
      ensures rows[i][0] in Table(rows, 3, 0, DiskRow(parse))
      ensures Table(rows, 3, 0, DiskRow(parse))[rows[i][0]] == Usage(ToUpper(TrimB(rows[i][1])), Number(parse, rows[i][2]))
    {
      TableEntry(rows, 3, 0, DiskRow(parse), i);
    }
  }

  /** And so does parseIndexHealth, by index name. */
  lemma IndexHealthInvertsRendering(table: seq<Line>, parse: Float)
    requires table != [] && GoodTable(table, 5) && DistinctKeys(Content(table, 5), 5, 2)
    ensures var rows, health := Content(table, 5), Table(Rows(Print(table, 5), 5), 5, 2, IndexRow(parse));
            && |health| == |rows|
            && forall i :: 0 <= i < |rows| ==>
                 && rows[i][2] in health
                 && health[rows[i][2]]
                    == IndexHealth(rows[i][0], rows[i][1], Number(parse, rows[i][3]), Number(parse, rows[i][4]))
  {
    hide Table, Content, Print, Rows;
    var rows := Content(table, 5);
    RowsInvertRendering(table, 5);
    TableSize(rows, 5, 2, IndexRow(parse));
    forall i | 0 <= i < |rows|
      ensures rows[i][2] in Table(rows, 5, 2, IndexRow(parse))
      ensures Table(rows, 5, 2, IndexRow(parse))[rows[i][2]]
           == IndexHealth(rows[i][0], rows[i][1], Number(parse, rows[i][3]), Number(parse, rows[i][4]))
    {
      TableEntry(rows, 5, 2, IndexRow(parse), i);
    }
  }
}
