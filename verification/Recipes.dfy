/** The cookbook's recipe recorder: a test binary marks where recipes start and end, the text written between
    is recorded, and what was recorded is merged into a table on disk. */
module Recipes {
  import opened Prelude

  /** What a test does with the recorder. */
  datatype Call = Start(name: string) | Write(text: string) | End(name: string)

  /** A recorded name and output. */
  type Row = (string, string)

  // ---- The session machine --------------------------------------------------------------------------

  /** The globals of a test binary. */
  datatype Session = Session(current: string, rout: string, names: seq<string>, outputs: seq<string>, failures: nat)

  const Blank: Session := Session("", "", [], [], 0)

  predicate Rejected(s: Session, c: Call) {
    match c
    case Start(name) => s.current != "" || name == ""
    case Write(_) => false
    case End(name) => s.current != name
  }

  function Do(s: Session, c: Call): Session {
    if Rejected(s, c) then s.(failures := s.failures + 1)
    else
      match c
      case Start(name) => s.(current := name, rout := "")
      case Write(text) => s.(rout := s.rout + text)
      case End(name) => s.(current := "", names := s.names + [name], outputs := s.outputs + [s.rout])
  }

  function DoAll(s: Session, calls: seq<Call>): Session
    decreases |calls|
  {
    if calls == [] then s else DoAll(Do(s, calls[0]), calls[1..])
  }

  function Zip(names: seq<string>, outputs: seq<string>): (rows: seq<Row>)
    requires |names| == |outputs|
  {
    seq(|names|, i requires 0 <= i < |names| => (names[i], outputs[i]))
  }

  /** The rows a session recorded. */
  function Recorded(calls: seq<Call>): seq<Row> {
    BuildersAgree(Blank, calls);
    Zip(DoAll(Blank, calls).names, DoAll(Blank, calls).outputs)
  }

  /** The two builders never differ in length. */
  lemma {:induction false} BuildersAgree(s: Session, calls: seq<Call>)
    requires |s.names| == |s.outputs|
    ensures |DoAll(s, calls).names| == |DoAll(s, calls).outputs|
    decreases |calls|
  {
    if calls != [] { BuildersAgree(Do(s, calls[0]), calls[1..]); }
  }

  // ---- What a history records -----------------------------------------------------------------------

  /** Where the first End(name) stands, or the length if there is none. */
  function FirstEnd(calls: seq<Call>, name: string): (j: nat)
    ensures j <= |calls| && End(name) !in calls[..j] && (j < |calls| ==> calls[j] == End(name))
  {
    if calls == [] || calls[0] == End(name) then 0 else 1 + FirstEnd(calls[1..], name)
  }

  /** All text written. */
  function Written(calls: seq<Call>): string {
    if calls == [] then ""
    else (if calls[0].Write? then calls[0].text else "") + Written(calls[1..])
  }

  /** Reading the history alone: a named Start, when nothing is open, opens an episode that lasts to the first
      End of that name and takes all text in between. Without such an End it records nothing. */
  function Episodes(calls: seq<Call>): seq<Row>
    decreases |calls|
  {
    if calls == [] then []
    else if calls[0].Start? && calls[0].name != "" then
      var (name, rest) := (calls[0].name, calls[1..]);
      var j := FirstEnd(rest, name);
      if j == |rest| then [] else [(name, Written(rest[..j]))] + Episodes(rest[j + 1..])
    else Episodes(calls[1..])
  }

  /** How often End("") comes while nothing is open. */
  function BlankEnds(calls: seq<Call>): nat
    decreases |calls|
  {
    if calls == [] then 0
    else if calls[0].Start? && calls[0].name != "" then
      var rest := calls[1..];
      var j := FirstEnd(rest, calls[0].name);
      if j == |rest| then 0 else BlankEnds(rest[j + 1..])
    else (if calls[0] == End("") then 1 else 0) + BlankEnds(calls[1..])
  }

  /** All rows of a history, when `left` was written since the last accepted start: those of the episodes, and
      for every End("") that comes while nothing is open one with whatever was written since then. */
  function Records(calls: seq<Call>, left: string): seq<Row>
    decreases |calls|
  {
    if calls == [] then []
    else
      var rest := calls[1..];
      match calls[0]
      case Write(text) => Records(rest, left + text)
      case End(name) => (if name == "" then [("", left)] else []) + Records(rest, left)
      case Start(name) =>
        if name == "" then Records(rest, left)
        else
          var j := FirstEnd(rest, name);
          if j == |rest| then []
          else [(name, Written(rest[..j]))] + Records(rest[j + 1..], Written(rest[..j]))
  }

  /** Without blank ends these are the episodes; each blank end makes one more. */
  lemma {:induction false} RecordsOrEpisodes(calls: seq<Call>, left: string)
    ensures |Records(calls, left)| == |Episodes(calls)| + BlankEnds(calls)
    ensures BlankEnds(calls) == 0 ==> Records(calls, left) == Episodes(calls)
    decreases |calls|
  {
    if calls != [] {
      var rest := calls[1..];
      match calls[0]
      case Write(text) => RecordsOrEpisodes(rest, left + text);
      case End(name) => RecordsOrEpisodes(rest, left);
      case Start(name) =>
        if name == "" {
          RecordsOrEpisodes(rest, left);
        } else {
          var j := FirstEnd(rest, name);
          if j < |rest| { RecordsOrEpisodes(rest[j + 1..], Written(rest[..j])); }
        }
    }
  }

  /** Nothing but text inside an episode, and nothing but text and starts of episodes outside. */
  predicate Orderly(calls: seq<Call>)
    decreases |calls|
  {
    if calls == [] then true
    else
      match calls[0]
      case Write(_) => Orderly(calls[1..])
      case End(name) => name == "" && Orderly(calls[1..])
      case Start(name) =>
        var rest := calls[1..];
        var j := FirstEnd(rest, name);
        && name != ""
        && (forall k :: 0 <= k < j ==> rest[k].Write?)
        && (j < |rest| ==> Orderly(rest[j + 1..]))
  }

  lemma {:induction false} DoBoth(s: Session, a: seq<Call>, b: seq<Call>)
    ensures DoAll(s, a + b) == DoAll(DoAll(s, a), b)
    decreases |a|
  {
    if a == [] {
      assert a + b == b;
    } else {
      assert (a + b)[1..] == a[1..] + b;
      DoBoth(Do(s, a[0]), a[1..], b);
    }
  }

  /** While a recipe is open and its End has not come, text is collected and every other call is rejected. */
  lemma {:induction false} WhileOpen(s: Session, calls: seq<Call>)
    requires s.current != "" && End(s.current) !in calls
    ensures var t := DoAll(s, calls);
            && t == s.(rout := s.rout + Written(calls), failures := t.failures)
            && t.failures >= s.failures
            && (t.failures == s.failures <==> forall k :: 0 <= k < |calls| ==> calls[k].Write?)
    decreases |calls|
  {
    if calls != [] {
      WhileOpen(Do(s, calls[0]), calls[1..]);
      assert calls[0] in calls;
      assert forall k :: 1 <= k < |calls| ==> calls[k] == calls[1..][k - 1];
    }
  }

  /** An episode as the machine runs it. */
  lemma EpisodeRuns(s: Session, name: string, rest: seq<Call>)
    requires s.current == "" && name != ""
    ensures var j := FirstEnd(rest, name);
            var t := DoAll(Do(s, Start(name)), rest[..j]);
            && t == s.(current := name, rout := Written(rest[..j]), failures := t.failures)
            && t.failures >= s.failures
            && (t.failures == s.failures <==> forall k :: 0 <= k < j ==> rest[k].Write?)
            && DoAll(Do(s, Start(name)), rest) == (if j == |rest| then t else DoAll(Do(t, End(name)), rest[j + 1..]))
  {
    var j := FirstEnd(rest, name);
    var begun := Do(s, Start(name));
    WhileOpen(begun, rest[..j]);
    SplitRun(begun, rest, j);
    assert forall k :: 0 <= k < j ==> rest[..j][k] == rest[k];
  }

  lemma SplitRun(s: Session, calls: seq<Call>, j: nat)
    requires j <= |calls|
    ensures var t := DoAll(s, calls[..j]);
            DoAll(s, calls) == if j == |calls| then t else DoAll(Do(t, calls[j]), calls[j + 1..])
  {
    DoBoth(s, calls[..j], calls[j..]);
    assert calls == calls[..j] + calls[j..];
    if j < |calls| { assert calls[j..][1..] == calls[j + 1..]; }
  }

  lemma ZipOneMore(names: seq<string>, outputs: seq<string>, name: string, output: string)
    requires |names| == |outputs|
    ensures Zip(names + [name], outputs + [output]) == Zip(names, outputs) + [(name, output)]
  {
  }

  /** From `s`, where nothing is open, `calls` came to `t`. */
  predicate Adds(s: Session, calls: seq<Call>, t: Session)
    requires |s.names| == |s.outputs|
  {
    && |t.names| == |t.outputs|
    && Zip(t.names, t.outputs) == Zip(s.names, s.outputs) + Records(calls, s.rout)
    && t.failures >= s.failures
    && (t.failures == s.failures <==> Orderly(calls))
  }

  /** What a session adds, from any point where nothing is open. */
  lemma {:induction false} SessionAdds(s: Session, calls: seq<Call>)
    requires s.current == "" && |s.names| == |s.outputs|
    ensures Adds(s, calls, DoAll(s, calls))
    decreases |calls|
  {
    if calls == [] {
    } else if calls[0].Start? && calls[0].name != "" {
      EpisodeAdds(s, calls);
    } else {
      SessionAdds(Do(s, calls[0]), calls[1..]);
      if calls[0] == End("") { ZipOneMore(s.names, s.outputs, "", s.rout); }
    }
  }

  lemma {:induction false} EpisodeAdds(s: Session, calls: seq<Call>)
    requires s.current == "" && |s.names| == |s.outputs|
    requires calls != [] && calls[0].Start? && calls[0].name != ""
    ensures Adds(s, calls, DoAll(s, calls))
    decreases |calls|, 0
  {
    var (name, rest) := (calls[0].name, calls[1..]);
    var j := FirstEnd(rest, name);
    EpisodeRuns(s, name, rest);
    if j < |rest| {
      var t := DoAll(Do(s, Start(name)), rest[..j]);
      var u := Do(t, End(name));
      ZipOneMore(s.names, s.outputs, name, t.rout);
      SessionAdds(u, rest[j + 1..]);
      assert Orderly(calls) <==> (forall k :: 0 <= k < j ==> rest[k].Write?) && Orderly(rest[j + 1..]);
    }
  }

  /** What any history whatever records. */
  lemma RecordsHistory(calls: seq<Call>)
    ensures Recorded(calls) == Records(calls, "")
  {
    SessionAdds(Blank, calls);
  }

  /** The recorder records exactly the episodes of its history, just when End("") never comes while nothing is open. */
  lemma RecordsEpisodes(calls: seq<Call>)
    ensures Recorded(calls) == Episodes(calls) <==> BlankEnds(calls) == 0
    ensures |Recorded(calls)| == |Episodes(calls)| + BlankEnds(calls)
  {
    RecordsHistory(calls);
    RecordsOrEpisodes(calls, "");
  }

  /** A session fails no check just when its history is orderly. */
  lemma FailsUnlessOrderly(calls: seq<Call>)
    ensures DoAll(Blank, calls).failures == 0 <==> Orderly(calls)
  {
    SessionAdds(Blank, calls);
  }

  lemma {:induction false} NamedEndsSuffice(calls: seq<Call>)
    requires End("") !in calls
    ensures BlankEnds(calls) == 0
    decreases |calls|
  {
    if calls != [] {
      if calls[0].Start? && calls[0].name != "" {
        var rest := calls[1..];
        var j := FirstEnd(rest, calls[0].name);
        if j < |rest| { NamedEndsSuffice(rest[j + 1..]); }
      } else {
        assert calls[0] in calls;
        NamedEndsSuffice(calls[1..]);
      }
    }
  }

  /** Ending the recipe with the empty name is accepted when none is open, and records what was written since the
      last recipe started, and after it ended. */
  lemma BlankEndIsAccepted(name: string, text: string, more: string)
    requires name != ""
    ensures var calls := [Start(name), Write(text), End(name), Write(more), End("")];
            && DoAll(Blank, calls).failures == 0
            && Recorded(calls) == [(name, text), ("", text + more)]
            && Episodes(calls) == [(name, text)]
  {
    var after := [Write(more), End("")];
    var rest := [Write(text), End(name)] + after;
    var calls := [Start(name)] + rest;
    assert calls == [Start(name), Write(text), End(name), Write(more), End("")] && calls[1..] == rest;
    assert FirstEnd(rest, name) == 1 && rest[..1] == [Write(text)] && rest[2..] == after;
    assert Written([Write(text)]) == text + Written([]) == text;
    BlankEndAfter(more, text);
    RecordsHistory(calls);
    FailsUnlessOrderly(calls);
    assert forall k :: 0 <= k < 1 ==> rest[k].Write?;
  }

  lemma BlankEndAfter(more: string, left: string)
    ensures var calls := [Write(more), End("")];
            Records(calls, left) == [("", left + more)] && Episodes(calls) == [] && Orderly(calls)
  {
    var calls := [Write(more), End("")];
    assert calls[1..] == [End("")] && [End("")][1..] == [];
    assert Records([End("")], left + more) == [("", left + more)] + Records([], left + more);
    assert Episodes([End("")]) == Episodes([]);
    assert Orderly([End("")]) == Orderly([]);
  }

  // ---- Tables ---------------------------------------------------------------------------------------

  /** A table of two string columns, each a list of chunks. */
  datatype Table = Table(numRows: nat, names: seq<seq<string>>, outputs: seq<seq<string>>)

  /** FromRecordBatches over one batch. */
  function FromBatch(names: seq<string>, outputs: seq<string>): Table { Table(|names|, [names], [outputs]) }

  /** A table written to a stream and read back: every batch is a chunk, and no batch is written for no rows. */
  function ReadBack(t: Table): Table { if t.numRows == 0 then Table(0, [], []) else t }

  /** Chunk 0 of either column holds every row, or there are none. */
  predicate OneChunk(t: Table) {
    t.numRows > 0 ==> t.names != [] && t.outputs != [] && |t.names[0]| >= t.numRows && |t.outputs[0]| >= t.numRows
  }

  function Rows(t: Table): seq<Row>
    requires OneChunk(t)
  {
    if t.numRows == 0 then [] else Zip(t.names[0][..t.numRows], t.outputs[0][..t.numRows])
  }

  /** Later rows win. */
  function MapOf(rows: seq<Row>): map<string, string> {
    if rows == [] then map[]
    else var n := |rows| - 1; MapOf(rows[..n])[rows[n].0 := rows[n].1]
  }

  predicate Distinct(rows: seq<Row>) {
    forall i, j :: 0 <= i < j < |rows| ==> rows[i].0 != rows[j].0
  }

  /** The map gives every name the output of its last row, and has no other names. */
  lemma {:induction false} LastRowWins(rows: seq<Row>, name: string)
    ensures name in MapOf(rows) <==> exists i :: 0 <= i < |rows| && rows[i].0 == name
    ensures forall i :: (0 <= i < |rows| && rows[i].0 == name && (forall j :: i < j < |rows| ==> rows[j].0 != name)) ==>
                          name in MapOf(rows) && MapOf(rows)[name] == rows[i].1
  {
    if rows != [] {
      var n := |rows| - 1;
      LastRowWins(rows[..n], name);
      assert forall i :: 0 <= i < n ==> rows[..n][i] == rows[i];
      if rows[n].0 == name { assert name in MapOf(rows); }
    }
  }

  lemma {:induction false} MapOfBoth(a: seq<Row>, b: seq<Row>)
    ensures MapOf(a + b) == MapOf(a) + MapOf(b)
    decreases |b|
  {
    if b == [] {
      assert a + b == a;
    } else {
      var n := |b| - 1;
      assert (a + b)[..|a| + n] == a + b[..n];
      MapOfBoth(a, b[..n]);
    }
  }

  lemma TakeOut(x: map<string, string>, name: string, output: string, y: map<string, string>)
    requires name !in x && name !in y
    ensures (x[name := output] + y) - {name} == x + y
  {
  }

  predicate Absent(rows: seq<Row>, name: string) { forall i :: 0 <= i < |rows| ==> rows[i].0 != name }

  /** Taking a row out of a table takes out its name and nothing else, if no other row has it. */
  lemma WithoutRow(a: seq<Row>, r: Row, b: seq<Row>)
    requires Absent(a, r.0) && Absent(b, r.0)
    ensures MapOf(a + b) == MapOf((a + [r]) + b) - {r.0}
  {
    LastRowWins(a, r.0);
    LastRowWins(b, r.0);
    MapOfBoth(a + [r], b);
    MapOfBoth(a, b);
    assert (a + [r])[..|a|] == a;
    TakeOut(MapOf(a), r.0, r.1, MapOf(b));
  }

  function Without(rows: seq<Row>, i: nat): seq<Row>
    requires i < |rows|
  {
    rows[..i] + rows[i + 1..]
  }

  lemma StillDistinct(rows: seq<Row>, i: nat)
    requires Distinct(rows) && i < |rows|
    ensures Distinct(Without(rows, i))
    ensures forall r :: r in Without(rows, i) ==> r.0 != rows[i].0
    ensures multiset(rows) == multiset(Without(rows, i)) + multiset{rows[i]}
  {
    assert rows == (rows[..i] + [rows[i]]) + rows[i + 1..];
  }

  lemma SplitAt(rows: seq<Row>, i: nat)
    requires Distinct(rows) && i < |rows|
    ensures rows == (rows[..i] + [rows[i]]) + rows[i + 1..]
    ensures Absent(rows[..i], rows[i].0) && Absent(rows[i + 1..], rows[i].0)
  {
  }

  lemma RemoveRow(rows: seq<Row>, i: nat)
    requires Distinct(rows) && i < |rows|
    ensures MapOf(Without(rows, i)) == MapOf(rows) - {rows[i].0}
  {
    SplitAt(rows, i);
    WithoutRow(rows[..i], rows[i], rows[i + 1..]);
  }

  /** In a table without repeated names every row is an entry of the map, and the other way round. */
  lemma RowsAreEntries(rows: seq<Row>, name: string, output: string)
    requires Distinct(rows)
    ensures (name in MapOf(rows) && MapOf(rows)[name] == output) <==> (name, output) in rows
  {
    LastRowWins(rows, name);
    if name in MapOf(rows) {
      var i :| 0 <= i < |rows| && rows[i].0 == name;
      assert rows[i] == (name, MapOf(rows)[name]);
    }
  }

  /** Rows with distinct names that are the entries of `values` mean `values`. */
  lemma Tabulates(rows: seq<Row>, values: map<string, string>)
    requires Distinct(rows)
    requires forall i :: 0 <= i < |rows| ==> rows[i].0 in values && rows[i].1 == values[rows[i].0]
    requires forall k :: k in values ==> (k, values[k]) in rows
    ensures MapOf(rows) == values
  {
    forall k ensures (k in MapOf(rows) <==> k in values) && (k in values ==> MapOf(rows)[k] == values[k]) {
      if k in values { RowsAreEntries(rows, k, values[k]); }
      if k in MapOf(rows) { RowsAreEntries(rows, k, MapOf(rows)[k]); }
    }
  }

  /** Two tables without repeated names that mean the same map have the same rows, in some order. */
  lemma {:induction false} SameMapSameRows(a: seq<Row>, b: seq<Row>)
    requires Distinct(a) && Distinct(b) && MapOf(a) == MapOf(b)
    ensures multiset(a) == multiset(b)
    decreases |a|
  {
    if a == [] {
      if b != [] { RowsAreEntries(b, b[0].0, b[0].1); }
    } else {
      var n := |a| - 1;
      RowsAreEntries(a, a[n].0, a[n].1);
      RowsAreEntries(b, a[n].0, a[n].1);
      var i :| 0 <= i < |b| && b[i] == a[n];
      RemoveRow(a, n);
      RemoveRow(b, i);
      StillDistinct(a, n);
      StillDistinct(b, i);
      SameMapSameRows(Without(a, n), Without(b, i));
    }
  }

  /** `merged` is a table MergeRecipeTables may return, the order of its rows being free. */
  predicate Merges(older: Table, newer: Table, merged: Table) {
    && OneChunk(older) && OneChunk(newer) && OneChunk(merged) && |merged.names| == |merged.outputs| == 1
    && Distinct(Rows(merged))
    && MapOf(Rows(merged)) == MapOf(Rows(older)) + MapOf(Rows(newer))
  }

  lemma UnionAssociates(x: map<string, string>, y: map<string, string>, z: map<string, string>)
    ensures (x + y) + z == x + (y + z)
  {
  }

  /** Merging is associative, up to the order of the rows. */
  lemma MergeAssociates(a: Table, b: Table, c: Table, ab: Table, bc: Table, left: Table, right: Table)
    requires Merges(a, b, ab) && Merges(ab, c, left) && Merges(b, c, bc) && Merges(a, bc, right)
    ensures multiset(Rows(left)) == multiset(Rows(right))
  {
    UnionAssociates(MapOf(Rows(a)), MapOf(Rows(b)), MapOf(Rows(c)));
    SameMapSameRows(Rows(left), Rows(right));
  }

  /** Merging what is already there changes at most the order of the rows. */
  lemma MergeAgain(a: Table, b: Table, once: Table, twice: Table)
    requires Merges(a, b, once) && Merges(once, b, twice)
    ensures multiset(Rows(once)) == multiset(Rows(twice))
  {
    var (x, y) := (MapOf(Rows(a)), MapOf(Rows(b)));
    assert (x + y) + y == x + y;
    SameMapSameRows(Rows(once), Rows(twice));
  }

  lemma RowMore(names: seq<string>, outputs: seq<string>, i: nat)
    requires i < |names| && i < |outputs|
    ensures MapOf(Zip(names[..i + 1], outputs[..i + 1])) == MapOf(Zip(names[..i], outputs[..i]))[names[i] := outputs[i]]
  {
    var rows := Zip(names[..i], outputs[..i]);
    assert Zip(names[..i + 1], outputs[..i + 1]) == rows + [(names[i], outputs[i])];
    assert (rows + [(names[i], outputs[i])])[..i] == rows;
  }

  /** Reads chunk 0 of either column, and adds its rows to the map, later rows winning. None stands for a read outside
      chunk 0, which happens just when that does not hold all rows. */
  method PopulateMap(table: Table, values: map<string, string>) returns (result: Option<map<string, string>>)
    ensures result.Some? <==> OneChunk(table)
    ensures result.Some? ==> result.value == values + MapOf(Rows(table))
  {
    if table.numRows == 0 {
      return Some(values);
    }
    if table.names == [] || table.outputs == [] {
      return None;
    }
    var names, outputs := table.names[0], table.outputs[0];
    var m := values;
    var i := 0;
    while i < table.numRows
      invariant 0 <= i <= table.numRows && i <= |names| && i <= |outputs|
      invariant m == values + MapOf(Zip(names[..i], outputs[..i]))
    {
      if i >= |names| || i >= |outputs| {
        return None;
      }
      RowMore(names, outputs, i);
      m := m[names[i] := outputs[i]];
      i := i + 1;
    }
    result := Some(m);
  }

  /** The rows written so far are the entries of `values` whose names are not in `left`. */
  predicate Drained(values: map<string, string>, left: set<string>, rows: seq<Row>) {
    && left <= values.Keys
    && Distinct(rows)
    && (forall i :: 0 <= i < |rows| ==> rows[i].0 !in left && rows[i].0 in values && rows[i].1 == values[rows[i].0])
    && (forall k :: k in values && k !in left ==> (k, values[k]) in rows)
  }

  lemma DrainOne(values: map<string, string>, left: set<string>, rows: seq<Row>, name: string)
    requires Drained(values, left, rows) && name in left
    ensures Drained(values, left - {name}, rows + [(name, values[name])])
  {
    var more := rows + [(name, values[name])];
    assert more[|rows|] == (name, values[name]);
    forall k | k in values && k !in left - {name} ensures (k, values[k]) in more {
      if k != name { assert (k, values[k]) in rows; }
    }
  }

  method MergeRecipeTables(older: Table, newer: Table) returns (merged: Table)
    requires OneChunk(older) && OneChunk(newer)
    ensures Merges(older, newer, merged)
  {
    var read := PopulateMap(older, map[]);
    var values := read.value;
    assert values == MapOf(Rows(older));
    read := PopulateMap(newer, values);
    values := read.value;
    var names, outputs := [], [];
    var left := values.Keys;   // what the iteration over the hash map has not yet reached
    while left != {}
      invariant |names| == |outputs| && Drained(values, left, Zip(names, outputs))
    {
      var name :| name in left;
      DrainOne(values, left, Zip(names, outputs), name);
      ZipOneMore(names, outputs, name, values[name]);
      names, outputs := names + [name], outputs + [values[name]];
      left := left - {name};
    }
    Tabulates(Zip(names, outputs), values);
    merged := FromBatch(names, outputs);
    assert Rows(merged) == Zip(names, outputs);
  }

  // ---- A test binary --------------------------------------------------------------------------------

  /** A path that may hold a table. */
  class Disk {
    var file: Option<Table>

    ghost predicate Valid()
      reads this
    {
      file.Some? ==> OneChunk(file.value)
    }

    /** LoadExistingRecipeOutputTable */
    function Load(): Table
      reads this
    {
      match file
      case None => FromBatch([], [])
      case Some(t) => t
    }

    ghost function Contents(): map<string, string>
      reads this
      requires Valid()
    {
      MapOf(Rows(Load()))
    }

    constructor ()
      ensures Valid() && file == None && Contents() == map[]
    {
      file := None;
    }
  }

  class TestBinary {
    var currentRecipe: string
    var rout: string
    var testNames: seq<string>
    var testOutputs: seq<string>
    var failures: nat

    function Globals(): Session
      reads this
    {
      Session(currentRecipe, rout, testNames, testOutputs, failures)
    }

    constructor ()
      ensures Globals() == Blank
    {
      currentRecipe, rout, testNames, testOutputs, failures := "", "", [], [], 0;
    }

    method Fail()
      modifies `failures
      ensures failures == old(failures) + 1
    {
      failures := failures + 1;
    }

    method StartRecipe(name: string)
      modifies this
      ensures Globals() == Do(old(Globals()), Start(name))
    {
      if currentRecipe != "" {
        Fail();
        return;
      }
      if name == "" {
        Fail();
        return;
      }
      currentRecipe := name;
      rout := "";
    }

    method Append(text: string)
      modifies `rout
      ensures Globals() == Do(old(Globals()), Write(text))
    {
      rout := rout + text;
    }

    method EndRecipe(name: string)
      modifies this
      ensures Globals() == Do(old(Globals()), End(name))
    {
      if currentRecipe != name {
        Fail();
        return;
      }
      var output := rout;
      testNames := testNames + [name];
      testOutputs := testOutputs + [output];
      currentRecipe := "";
    }

    method HasRecipeOutput() returns (has: bool)
      ensures has <==> testNames != []
    {
      has := |testNames| > 0;
    }

    /** Finishing a builder leaves it empty. */
    method CreateRecipeOutputTable() returns (table: Table)
      requires |testNames| == |testOutputs|
      modifies `testNames, `testOutputs
      ensures OneChunk(table) && Rows(table) == Zip(old(testNames), old(testOutputs))
      ensures testNames == testOutputs == []
    {
      table := FromBatch(testNames, testOutputs);
      testNames, testOutputs := [], [];
    }

    method DumpRecipeOutput(disk: Disk)
      requires |testNames| == |testOutputs| && disk.Valid()
      modifies `testNames, `testOutputs, disk
      ensures disk.Valid() && testNames == testOutputs == []
      ensures disk.Contents() == old(disk.Contents()) + MapOf(Zip(old(testNames), old(testOutputs)))
      ensures disk.file.Some? && Distinct(Rows(disk.file.value))
    {
      var newTable := CreateRecipeOutputTable();
      var oldTable := disk.Load();
      var merged := MergeRecipeTables(oldTable, newTable);
      disk.file := Some(ReadBack(merged));
    }

    /** The tests of the binary run, then the end of main. `healthy` says that nothing else failed. */
    method RunAllTests(calls: seq<Call>, healthy: bool, disk: Disk)
      requires Globals() == Blank && disk.Valid()
      modifies this, disk
      ensures disk.Valid()
      ensures Published(Run(calls, healthy)) ==>
        && disk.Contents() == old(disk.Contents()) + MapOf(Recorded(calls))
        && disk.file.Some? && Distinct(Rows(disk.file.value))
      ensures !Published(Run(calls, healthy)) ==> disk.file == old(disk.file)
      ensures if healthy && Orderly(calls) && Records(calls, "") != [] then
                && disk.Contents() == old(disk.Contents()) + MapOf(Records(calls, ""))
                && disk.file.Some? && Distinct(Rows(disk.file.value))
              else disk.file == old(disk.file)
    {
      var i := 0;
      while i < |calls|
        invariant 0 <= i <= |calls|
        invariant DoAll(Globals(), calls[i..]) == DoAll(Blank, calls)
        invariant disk.Valid() && disk.file == old(disk.file)
      {
        match calls[i] {
          case Start(name) => StartRecipe(name);
          case Write(text) => Append(text);
          case End(name) => EndRecipe(name);
        }
        assert calls[i..][1..] == calls[i + 1..];
        i := i + 1;
      }
      BuildersAgree(Blank, calls);
      assert Globals() == DoAll(Blank, calls);
      PublishedExactly(Run(calls, healthy));
      RecordsHistory(calls);
      var passed := failures == 0 && healthy;
      var has := HasRecipeOutput();
      if passed && has {
        DumpRecipeOutput(disk);
      }
    }
  }

  // ---- Many runs against one file -------------------------------------------------------------------

  /** One run of a test binary. */
  datatype Run = Run(calls: seq<Call>, healthy: bool)

  /** The run reaches the file: every check passed and something was recorded. */
  predicate Published(r: Run) {
    DoAll(Blank, r.calls).failures == 0 && r.healthy && DoAll(Blank, r.calls).names != []
  }

  /** That is: nothing else failed, the history was orderly, and it recorded something. */
  lemma PublishedExactly(r: Run)
    ensures Published(r) <==> r.healthy && Orderly(r.calls) && Records(r.calls, "") != []
  {
    FailsUnlessOrderly(r.calls);
    RecordsHistory(r.calls);
    BuildersAgree(Blank, r.calls);
    assert |Recorded(r.calls)| == |DoAll(Blank, r.calls).names|;
  }

  /** All rows published, in order. */
  function AllRows(runs: seq<Run>): seq<Row> {
    if runs == [] then []
    else (if Published(runs[0]) then Recorded(runs[0].calls) else []) + AllRows(runs[1..])
  }

  /** What a file that had `had` comes to hold, run by run. */
  function After(had: map<string, string>, runs: seq<Run>): map<string, string>
    decreases |runs|
  {
    if runs == [] then had
    else After(if Published(runs[0]) then had + MapOf(Recorded(runs[0].calls)) else had, runs[1..])
  }

  /** Run by run or all at once: every name has the last output published for it, or what it had before. */
  lemma {:induction false} RunByRun(had: map<string, string>, runs: seq<Run>)
    ensures After(had, runs) == had + MapOf(AllRows(runs))
    decreases |runs|
  {
    if runs != [] {
      var rest := AllRows(runs[1..]);
      if Published(runs[0]) {
        var rows := Recorded(runs[0].calls);
        RunByRun(had + MapOf(rows), runs[1..]);
        UnionAssociates(had, MapOf(rows), MapOf(rest));
        MapOfBoth(rows, rest);
      } else {
        RunByRun(had, runs[1..]);
        assert [] + rest == rest;
      }
    }
  }

  /** After any runs the file gives each name the last output published for it, or what it had before, whatever
      the order the hash maps were iterated in; a file any run has reached has no repeated name. */
  method RunBinaries(runs: seq<Run>, disk: Disk)
    requires disk.Valid()
    modifies disk
    ensures disk.Valid() && disk.Contents() == old(disk.Contents()) + MapOf(AllRows(runs))
    ensures if exists i :: 0 <= i < |runs| && Published(runs[i])
            then disk.file.Some? && Distinct(Rows(disk.file.value))
            else disk.file == old(disk.file)
  {
    RunByRun(disk.Contents(), runs);
    var i := 0;
    while i < |runs|
      invariant 0 <= i <= |runs| && disk.Valid()
      invariant After(disk.Contents(), runs[i..]) == After(old(disk.Contents()), runs)
      invariant if exists k :: 0 <= k < i && Published(runs[k])
                then disk.file.Some? && Distinct(Rows(disk.file.value))
                else disk.file == old(disk.file)
    {
      var r := runs[i];
      var binary := new TestBinary();
      binary.RunAllTests(r.calls, r.healthy, disk);
      assert r == Run(r.calls, r.healthy);
      assert runs[i..][0] == r && runs[i..][1..] == runs[i + 1..];
      i := i + 1;
    }
  }

  /** A published run whose ends are all named is a sequence of complete episodes with text around them, perhaps
      one left open at the end, and publishes exactly those. */
  lemma PublishedRunsAreOrderly(r: Run)
    requires Published(r) && End("") !in r.calls
    ensures Orderly(r.calls) && Recorded(r.calls) == Episodes(r.calls) != []
  {
    FailsUnlessOrderly(r.calls);
    NamedEndsSuffice(r.calls);
    RecordsEpisodes(r.calls);
  }
}
