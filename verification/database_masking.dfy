/** Sanitizing a captured database: which grants are accepted, the statements that filter
    and mask the staging copy, and what running them leaves.  A cell is a text or NULL
    (`None`); a string stands for its bytes. */
module DatabaseMasking {
  import opened Common

  datatype Column = Column(schema: string, table: string, name: string)
  datatype Mask = Mask(column: Column, strategy: string, domain: string, value: string)
  datatype Subset = Subset(column: Column, equals: string)
  datatype Relationship = Relationship(from: Column, to: Column)
  datatype Grant = Grant(masking: seq<Mask>, subsets: seq<Subset>, relationships: seq<Relationship>)

  // ---------------------------------------------------------------- accepted grants

  predicate Letter(c: char) { 'A' <= c <= 'Z' || 'a' <= c <= 'z' || c == '_' }

  predicate Identifier(s: string) {
    1 <= |s| <= 63 && Letter(s[0]) && forall i :: 0 <= i < |s| ==> Letter(s[i]) || '0' <= s[i] <= '9'
  }

  predicate ValidColumn(c: Column) {
    Identifier(c.schema) && Identifier(c.table) && Identifier(c.name) && c.schema != "information_schema" && !("pg_" <= c.schema)
  }

  predicate Bounded(value: string) { |value| <= 256 && '\0' !in value }

  predicate GoodMask(m: Mask) {
    && ValidColumn(m.column)
    && ((m.strategy == "Token" && Identifier(m.domain) && m.value == "")
        || (m.strategy == "Null" && m.domain == "" && m.value == "")
        || (m.strategy == "Constant" && m.domain == "" && Bounded(m.value)))
  }

  predicate GoodSubset(f: Subset) { ValidColumn(f.column) && Bounded(f.equals) }

  predicate Distinct(masks: seq<Mask>) {
    forall i, j :: 0 <= i < j < |masks| ==> masks[i].column != masks[j].column
  }

  predicate Masks(masks: seq<Mask>, c: Column) { exists i :: 0 <= i < |masks| && masks[i].column == c }

  /** The ends are both left alone, or both turned into tokens of one domain. */
  predicate Paired(masks: seq<Mask>, r: Relationship) {
    || (!Masks(masks, r.from) && !Masks(masks, r.to))
    || exists i, j :: 0 <= i < |masks| && 0 <= j < |masks| && masks[i].column == r.from && masks[j].column == r.to &&
         masks[i].strategy == "Token" && masks[j].strategy == "Token" && masks[i].domain == masks[j].domain
  }

  predicate GoodRelationship(masks: seq<Mask>, r: Relationship) {
    ValidColumn(r.from) && ValidColumn(r.to) && Paired(masks, r)
  }

  predicate Accepted(g: Grant) {
    && 0 < |g.masking| <= 128 && |g.relationships| <= 64 && |g.subsets| <= 64
    && (forall i :: 0 <= i < |g.subsets| ==> GoodSubset(g.subsets[i]))
    && (forall i :: 0 <= i < |g.masking| ==> GoodMask(g.masking[i]))
    && Distinct(g.masking)
    && (forall i :: 0 <= i < |g.relationships| ==> GoodRelationship(g.masking, g.relationships[i]))
  }

  ghost predicate Indexed(byColumn: map<Column, Mask>, masks: seq<Mask>) {
    && (forall c :: c in byColumn ==> Masks(masks, c))
    && (forall i :: 0 <= i < |masks| ==> masks[i].column in byColumn && byColumn[masks[i].column] == masks[i])
  }

  lemma IndexedPaired(byColumn: map<Column, Mask>, masks: seq<Mask>, r: Relationship)
    requires Indexed(byColumn, masks)
    ensures Paired(masks, r) <==>
      ((r.from in byColumn <==> r.to in byColumn) &&
       (r.from in byColumn ==> byColumn[r.from].strategy == "Token" && byColumn[r.to].strategy == "Token" && byColumn[r.from].domain == byColumn[r.to].domain))
  {
    assert r.from in byColumn <==> Masks(masks, r.from);
    assert r.to in byColumn <==> Masks(masks, r.to);
  }

  /** The mask, subset and relationship rules of a grant. */
  method Resolve(g: Grant) returns (ok: bool)
    ensures ok <==> Accepted(g)
  {
    hide GoodSubset, GoodMask, ValidColumn, Paired, Masks;
    if |g.masking| == 0 || |g.masking| > 128 || |g.relationships| > 64 || |g.subsets| > 64 { return false; }
    for i := 0 to |g.subsets|
      invariant forall k :: 0 <= k < i ==> GoodSubset(g.subsets[k])
    {
      if !GoodSubset(g.subsets[i]) { return false; }
    }
    var byColumn: map<Column, Mask> := map[];
    for i := 0 to |g.masking|
      invariant forall k :: 0 <= k < i ==> GoodMask(g.masking[k])
      invariant Distinct(g.masking[..i])
      invariant Indexed(byColumn, g.masking[..i])
    {
      var m := g.masking[i];
      if m.column in byColumn {
        assert Masks(g.masking[..i], m.column);
        Repeated(g.masking, i);
        return false;
      }
      if !GoodMask(m) { return false; }
      IndexedGrows(byColumn, g.masking, i);
      byColumn := byColumn[m.column := m];
    }
    assert g.masking[..|g.masking|] == g.masking;
    for i := 0 to |g.relationships|
      invariant forall k :: 0 <= k < i ==> GoodRelationship(g.masking, g.relationships[k])
    {
      var r := g.relationships[i];
      if !ValidColumn(r.from) || !ValidColumn(r.to) { return false; }
      IndexedPaired(byColumn, g.masking, r);
      var maskedFrom, maskedTo := r.from in byColumn, r.to in byColumn;
      if maskedFrom != maskedTo { return false; }
      if maskedFrom {
        var a, b := byColumn[r.from], byColumn[r.to];
        if a.strategy != "Token" || b.strategy != "Token" || a.domain != b.domain { return false; }
      }
    }
    return true;
  }

  lemma Repeated(masks: seq<Mask>, i: nat)
    requires i < |masks| && Masks(masks[..i], masks[i].column)
    ensures !Distinct(masks)
  {
    var k :| 0 <= k < i && masks[..i][k].column == masks[i].column;
    assert masks[k].column == masks[i].column;
  }

  lemma IndexedGrows(byColumn: map<Column, Mask>, masks: seq<Mask>, i: nat)
    requires i < |masks| && Indexed(byColumn, masks[..i]) && Distinct(masks[..i]) && masks[i].column !in byColumn
    ensures Indexed(byColumn[masks[i].column := masks[i]], masks[..i + 1]) && Distinct(masks[..i + 1])
  {
    var m, after := masks[i], byColumn[masks[i].column := masks[i]];
    assert masks[..i + 1] == masks[..i] + [m];
    forall c | c in after
      ensures Masks(masks[..i + 1], c)
    {
      if c == m.column {
        assert masks[..i + 1][i].column == c;
      } else {
        var k :| 0 <= k < i && masks[..i][k].column == c;
        assert masks[..i + 1][k].column == c;
      }
    }
    forall k | 0 <= k < i
      ensures masks[k].column in byColumn && byColumn[masks[k].column] == masks[k]
    {
      assert masks[..i][k] == masks[k];
    }
  }

  // ---------------------------------------------------------------- the statements

  datatype Expression = Token(prefix: string) | Null | Constant(value: string)

  datatype Statement =
    | Begin
    | TriggersOff
    | Delete(column: Column, keep: string)
    | Update(column: Column, to: Expression)
    | TriggersOn
    | Revalidate
    | Check(relationship: Relationship)
    | Commit

  predicate Salted(salt: string) {
    |salt| == 64 && forall i :: 0 <= i < 64 ==> '0' <= salt[i] <= '9' || 'a' <= salt[i] <= 'f'
  }

  predicate WritableMask(m: Mask) {
    && ValidColumn(m.column)
    && ((m.strategy == "Token" && Identifier(m.domain)) || m.strategy == "Null" || (m.strategy == "Constant" && Bounded(m.value)))
  }

  predicate Writable(g: Grant, salt: string) {
    && Salted(salt)
    && (forall i :: 0 <= i < |g.subsets| ==> GoodSubset(g.subsets[i]))
    && (forall i :: 0 <= i < |g.masking| ==> WritableMask(g.masking[i]))
    && (forall i :: 0 <= i < |g.relationships| ==> ValidColumn(g.relationships[i].from) && ValidColumn(g.relationships[i].to))
  }

  function Written(m: Mask, salt: string): Expression {
    if m.strategy == "Token" then Token(salt + ":" + m.domain + ":")
    else if m.strategy == "Null" then Null
    else Constant(m.value)
  }

  function Deletes(subsets: seq<Subset>): seq<Statement> {
    seq(|subsets|, i requires 0 <= i < |subsets| => Delete(subsets[i].column, subsets[i].equals))
  }

  function Updates(masks: seq<Mask>, salt: string): seq<Statement> {
    seq(|masks|, i requires 0 <= i < |masks| => Update(masks[i].column, Written(masks[i], salt)))
  }

  function Checks(relationships: seq<Relationship>): seq<Statement> {
    seq(|relationships|, i requires 0 <= i < |relationships| => Check(relationships[i]))
  }

  /** Filters first, then masks, then the checks, in one transaction. */
  function Statements(g: Grant, salt: string): seq<Statement> {
    [Begin, TriggersOff] + Deletes(g.subsets) + Updates(g.masking, salt) + [TriggersOn, Revalidate] + Checks(g.relationships) + [Commit]
  }

  /** The statements of a grant; they are written exactly for a hexadecimal salt and valid
      columns, domains and values, and every accepted grant has those. */
  method MaskSQL(g: Grant, salt: string) returns (sql: Option<seq<Statement>>)
    ensures sql == if Writable(g, salt) then Some(Statements(g, salt)) else None
    ensures Accepted(g) && Salted(salt) ==> sql.Some?
  {
    hide ValidColumn, GoodSubset, WritableMask, Identifier, Bounded, Paired, Distinct;
    MustBeWritable(g, salt);
    if |salt| != 64 { return None; }
    for i := 0 to |salt|
      invariant forall k :: 0 <= k < i ==> '0' <= salt[k] <= '9' || 'a' <= salt[k] <= 'f'
    {
      if salt[i] !in "0123456789abcdef" { return None; }
    }
    var b: seq<Statement> := [Begin, TriggersOff];
    for i := 0 to |g.subsets|
      invariant b == [Begin, TriggersOff] + Deletes(g.subsets[..i])
      invariant forall k :: 0 <= k < i ==> GoodSubset(g.subsets[k])
    {
      if !GoodSubset(g.subsets[i]) { return None; }
      assert Deletes(g.subsets[..i + 1]) == Deletes(g.subsets[..i]) + [Delete(g.subsets[i].column, g.subsets[i].equals)];
      b := b + [Delete(g.subsets[i].column, g.subsets[i].equals)];
    }
    assert g.subsets[..|g.subsets|] == g.subsets;
    ghost var filtered := b;
    for i := 0 to |g.masking|
      invariant b == filtered + Updates(g.masking[..i], salt)
      invariant forall k :: 0 <= k < i ==> WritableMask(g.masking[k])
    {
      var m := g.masking[i];
      var wrong := Refused(m);
      if wrong { return None; }
      assert Updates(g.masking[..i + 1], salt) == Updates(g.masking[..i], salt) + [Update(m.column, Written(m, salt))];
      b := b + [Update(m.column, Written(m, salt))];
    }
    assert g.masking[..|g.masking|] == g.masking;
    b := b + [TriggersOn, Revalidate];
    ghost var masked := b;
    for i := 0 to |g.relationships|
      invariant b == masked + Checks(g.relationships[..i])
      invariant forall k :: 0 <= k < i ==> ValidColumn(g.relationships[k].from) && ValidColumn(g.relationships[k].to)
    {
      var r := g.relationships[i];
      if !ValidColumn(r.from) || !ValidColumn(r.to) { return None; }
      assert Checks(g.relationships[..i + 1]) == Checks(g.relationships[..i]) + [Check(r)];
      b := b + [Check(r)];
    }
    assert g.relationships[..|g.relationships|] == g.relationships;
    return Some(b + [Commit]);
  }

  method Refused(m: Mask) returns (refused: bool)
    ensures refused <==> !WritableMask(m)
  {
    if !ValidColumn(m.column) { return true; }
    match m.strategy
    case "Token" => return !Identifier(m.domain);
    case "Null" => return false;
    case "Constant" => return |m.value| > 256 || '\0' in m.value;
    case _ => return true;
  }

  lemma MustBeWritable(g: Grant, salt: string)
    ensures Accepted(g) && Salted(salt) ==> Writable(g, salt)
  {}


  // ---------------------------------------------------------------- running them

  datatype Name = Name(schema: string, table: string)

  type Row = map<string, Option<string>>

  datatype Table = Table(columns: set<string>, rows: seq<Row>)

  type Tables = map<Name, Table>

  function Of(c: Column): Name { Name(c.schema, c.table) }

  ghost predicate Shaped(db: Tables) {
    forall n, i :: n in db && 0 <= i < |db[n].rows| ==> db[n].rows[i].Keys == db[n].columns
  }

  predicate Present(db: Tables, c: Column) { Of(c) in db && c.name in db[Of(c)].columns }

  function Cell(row: Row, name: string): Option<string> { if name in row then row[name] else None }

  function Eval(e: Expression, cell: Option<string>, hash: string -> string): Option<string> {
    match e
    case Token(prefix) => if cell.None? then None else Some(hash(prefix + cell.value))
    case Null => None
    case Constant(value) => Some(value)
  }

  /** Rows whose cell is distinct from the literal are deleted, also when it is NULL. */
  function Matching(rows: seq<Row>, name: string, keep: string): seq<Row> {
    if rows == [] then []
    else if Cell(rows[0], name) == Some(keep) then [rows[0]] + Matching(rows[1..], name, keep)
    else Matching(rows[1..], name, keep)
  }

  function Replaced(rows: seq<Row>, name: string, e: Expression, hash: string -> string): seq<Row> {
    seq(|rows|, i requires 0 <= i < |rows| => rows[i][name := Eval(e, Cell(rows[i], name), hash)])
  }

  function Values(db: Tables, c: Column): set<string> {
    if Of(c) !in db then {} else
    set i | 0 <= i < |db[Of(c)].rows| && Cell(db[Of(c)].rows[i], c.name).Some? :: Cell(db[Of(c)].rows[i], c.name).value
  }

  /** Every value of the referring column is a value of the referred one. */
  predicate Holds(db: Tables, r: Relationship) {
    Present(db, r.from) && Present(db, r.to) && Values(db, r.from) <= Values(db, r.to)
  }

  /** What the staging database adds: a hash, and its own foreign keys. */
  datatype Server = Server(hash: string -> string, keys: seq<Relationship>)

  /** `None` is an error, which aborts the transaction. */
  function Exec(s: Statement, db: Tables, server: Server): Option<Tables> {
    match s
    case Delete(c, keep) =>
      if !Present(db, c) then None
      else Some(db[Of(c) := db[Of(c)].(rows := Matching(db[Of(c)].rows, c.name, keep))])
    case Update(c, e) =>
      if !Present(db, c) then None
      else Some(db[Of(c) := db[Of(c)].(rows := Replaced(db[Of(c)].rows, c.name, e, server.hash))])
    case Revalidate => if forall k :: 0 <= k < |server.keys| ==> Holds(db, server.keys[k]) then Some(db) else None
    case Check(r) => if Holds(db, r) then Some(db) else None
    case _ => Some(db)
  }

  function Run(statements: seq<Statement>, db: Tables, server: Server): Option<Tables> {
    if statements == [] then Some(db) else
    var first := Exec(statements[0], db, server);
    if first.None? then None else Run(statements[1..], first.value, server)
  }

  lemma {:induction false} RunJoined(a: seq<Statement>, b: seq<Statement>, db: Tables, server: Server)
    ensures Run(a + b, db, server) == if Run(a, db, server).None? then None else Run(b, Run(a, db, server).value, server)
  {
    hide Exec;
    if a == [] {
      assert a + b == b;
    } else {
      assert (a + b)[1..] == a[1..] + b;
      var first := Exec(a[0], db, server);
      if first.Some? { RunJoined(a[1..], b, first.value, server); }
    }
  }

  // ---------------------------------------------------------------- what they leave

  predicate Kept(n: Name, row: Row, subsets: seq<Subset>) {
    forall i :: 0 <= i < |subsets| && Of(subsets[i].column) == n ==> Cell(row, subsets[i].column.name) == Some(subsets[i].equals)
  }

  /** The rows that every filter on their table keeps, in their order. */
  function Survivors(n: Name, rows: seq<Row>, subsets: seq<Subset>): seq<Row> {
    if rows == [] then []
    else (if Kept(n, rows[0], subsets) then [rows[0]] else []) + Survivors(n, rows[1..], subsets)
  }

  function Filtered(db: Tables, subsets: seq<Subset>): Tables {
    map n | n in db :: Table(db[n].columns, Survivors(n, db[n].rows, subsets))
  }

  /** The mask of a column. */
  function MaskOf(masks: seq<Mask>, c: Column): Option<Mask> {
    if masks == [] then None
    else if masks[|masks| - 1].column == c then Some(masks[|masks| - 1])
    else MaskOf(masks[..|masks| - 1], c)
  }

  function Hidden(n: Name, name: string, cell: Option<string>, masks: seq<Mask>, salt: string, hash: string -> string): Option<string> {
    match MaskOf(masks, Column(n.schema, n.table, name))
    case None => cell
    case Some(m) => Eval(Written(m, salt), cell, hash)
  }

  /** Every cell of a row, each masked by the mask of its own column. */
  function MaskedRow(n: Name, row: Row, masks: seq<Mask>, salt: string, hash: string -> string): Row {
    map name | name in row :: Hidden(n, name, row[name], masks, salt, hash)
  }

  function MaskedRows(n: Name, rows: seq<Row>, masks: seq<Mask>, salt: string, hash: string -> string): (r: seq<Row>)
    ensures |r| == |rows|
  {
    seq(|rows|, i requires 0 <= i < |rows| => MaskedRow(n, rows[i], masks, salt, hash))
  }

  function Masked(db: Tables, masks: seq<Mask>, salt: string, hash: string -> string): Tables {
    map n | n in db :: Table(db[n].columns, MaskedRows(n, db[n].rows, masks, salt, hash))
  }

  predicate SubsetsPresent(db: Tables, subsets: seq<Subset>) {
    forall i :: 0 <= i < |subsets| ==> Present(db, subsets[i].column)
  }

  predicate MasksPresent(db: Tables, masks: seq<Mask>) {
    forall i :: 0 <= i < |masks| ==> Present(db, masks[i].column)
  }

  predicate AllHold(db: Tables, relationships: seq<Relationship>) {
    forall i :: 0 <= i < |relationships| ==> Holds(db, relationships[i])
  }

  /** The sanitized copy, said at once: the surviving rows with every cell masked. */
  function Sanitized(g: Grant, salt: string, db: Tables, server: Server): Tables {
    Masked(Filtered(db, g.subsets), g.masking, salt, server.hash)
  }

  // ---------------------------------------------------------------- filters

  lemma {:induction false} MatchingSurvivors(n: Name, rows: seq<Row>, subsets: seq<Subset>, f: Subset)
    ensures Of(f.column) == n ==> Matching(Survivors(n, rows, subsets), f.column.name, f.equals) == Survivors(n, rows, subsets + [f])
    ensures Of(f.column) != n ==> Survivors(n, rows, subsets) == Survivors(n, rows, subsets + [f])
  {
    if rows != [] {
      MatchingSurvivors(n, rows[1..], subsets, f);
      KeptMore(n, rows[0], subsets, f);
      var rest := Survivors(n, rows[1..], subsets);
      if Kept(n, rows[0], subsets) {
        assert ([rows[0]] + rest)[1..] == rest;
      } else {
        assert [] + rest == rest;
      }
    }
  }

  lemma KeptMore(n: Name, row: Row, subsets: seq<Subset>, f: Subset)
    ensures Kept(n, row, subsets + [f]) <==> Kept(n, row, subsets) && (Of(f.column) == n ==> Cell(row, f.column.name) == Some(f.equals))
  {
    var more := subsets + [f];
    assert more[|subsets|] == f;
    if Kept(n, row, more) {
      forall i | 0 <= i < |subsets| && Of(subsets[i].column) == n
        ensures Cell(row, subsets[i].column.name) == Some(subsets[i].equals)
      {
        assert more[i] == subsets[i];
      }
    }
  }

  lemma FilteredMore(db: Tables, subsets: seq<Subset>, f: Subset)
    requires Present(db, f.column)
    ensures Exec(Delete(f.column, f.equals), Filtered(db, subsets), Server(x => x, [])) == Some(Filtered(db, subsets + [f]))
  {
    forall n | n in db
      ensures Filtered(db, subsets + [f])[n].rows ==
        if n == Of(f.column) then Matching(Filtered(db, subsets)[n].rows, f.column.name, f.equals) else Filtered(db, subsets)[n].rows
    {
      MatchingSurvivors(n, db[n].rows, subsets, f);
    }
    var c := f.column;
    var before := Filtered(db, subsets);
    assert before[Of(c) := before[Of(c)].(rows := Matching(before[Of(c)].rows, c.name, f.equals))] == Filtered(db, subsets + [f]);
  }

  lemma DeleteIgnoresServer(c: Column, keep: string, db: Tables, a: Server, b: Server)
    ensures Exec(Delete(c, keep), db, a) == Exec(Delete(c, keep), db, b)
  {}

  lemma {:induction false} NoFilters(n: Name, rows: seq<Row>)
    ensures Survivors(n, rows, []) == rows
  {
    if rows != [] { NoFilters(n, rows[1..]); }
  }

  /** Running the deletes leaves exactly the surviving rows, or fails on a missing column. */
  lemma {:induction false} DeletesRun(db: Tables, subsets: seq<Subset>, server: Server)
    ensures Run(Deletes(subsets), db, server) == if SubsetsPresent(db, subsets) then Some(Filtered(db, subsets)) else None
  {
    hide Exec, Run, Filtered, Present, Survivors;
    if subsets == [] {
      NothingFiltered(db);
      NothingRun(db, server);
      assert Deletes(subsets) == [];
    } else {
      var rest, f := subsets[..|subsets| - 1], subsets[|subsets| - 1];
      DeletesRun(db, rest, server);
      assert subsets == rest + [f];
      assert Deletes(subsets) == Deletes(rest) + [Delete(f.column, f.equals)];
      RunJoined(Deletes(rest), [Delete(f.column, f.equals)], db, server);
      OneRun(Delete(f.column, f.equals), Filtered(db, rest), server);
      assert SubsetsPresent(db, subsets) <==> SubsetsPresent(db, rest) && Present(db, f.column) by {
        if SubsetsPresent(db, subsets) {
          forall i | 0 <= i < |rest| ensures Present(db, rest[i].column) { assert subsets[i] == rest[i]; }
          assert Present(db, subsets[|subsets| - 1].column);
        }
      }
      FilteredPresent(db, rest, f.column);
      if Present(db, f.column) {
        FilteredMore(db, rest, f);
        DeleteIgnoresServer(f.column, f.equals, Filtered(db, rest), Server(x => x, []), server);
      } else {
        AbsentFails(f, Filtered(db, rest), server);
      }
    }
  }

  lemma AbsentFails(f: Subset, db: Tables, server: Server)
    requires !Present(db, f.column)
    ensures Exec(Delete(f.column, f.equals), db, server) == None
  {}

  lemma NothingRun(db: Tables, server: Server)
    ensures Run([], db, server) == Some(db)
  {}

  lemma OneRun(s: Statement, db: Tables, server: Server)
    ensures Run([s], db, server) == Exec(s, db, server)
  {}

  lemma NothingFiltered(db: Tables)
    ensures Filtered(db, []) == db
  {
    forall n | n in db ensures Survivors(n, db[n].rows, []) == db[n].rows { NoFilters(n, db[n].rows); }
  }

  lemma FilteredPresent(db: Tables, subsets: seq<Subset>, c: Column)
    ensures Present(Filtered(db, subsets), c) <==> Present(db, c)
  {}

  lemma {:induction false} SurvivorsAre(n: Name, rows: seq<Row>, subsets: seq<Subset>, row: Row)
    ensures row in Survivors(n, rows, subsets) <==> row in rows && Kept(n, row, subsets)
  {
    if rows != [] { SurvivorsAre(n, rows[1..], subsets, row); }
  }

  lemma FilteredShaped(db: Tables, subsets: seq<Subset>)
    requires Shaped(db)
    ensures Shaped(Filtered(db, subsets))
  {
    var after := Filtered(db, subsets);
    forall n, i | n in after && 0 <= i < |after[n].rows|
      ensures after[n].rows[i].Keys == after[n].columns
    {
      SurvivorsAre(n, db[n].rows, subsets, after[n].rows[i]);
    }
  }

  // ---------------------------------------------------------------- masks

  lemma {:induction false} MaskOfUnmasked(masks: seq<Mask>, c: Column)
    ensures MaskOf(masks, c).None? <==> !Masks(masks, c)
    ensures MaskOf(masks, c).Some? ==> MaskOf(masks, c).value in masks && MaskOf(masks, c).value.column == c
  {
    if masks != [] {
      var rest := masks[..|masks| - 1];
      MaskOfUnmasked(rest, c);
      if masks[|masks| - 1].column != c && Masks(masks, c) {
        var i :| 0 <= i < |masks| && masks[i].column == c;
        assert rest[i].column == c;
      }
      if Masks(rest, c) {
        var i :| 0 <= i < |rest| && rest[i].column == c;
        assert masks[i].column == c;
      }
    }
  }

  /** Columns have one mask each, so the order of the masks says nothing. */
  lemma MaskOfPermuted(a: seq<Mask>, b: seq<Mask>, c: Column)
    requires Distinct(a) && multiset(a) == multiset(b)
    ensures MaskOf(a, c) == MaskOf(b, c)
  {
    MaskOfUnmasked(a, c);
    MaskOfUnmasked(b, c);
    forall m: Mask ensures m in a <==> m in b {
      assert m in a <==> m in multiset(a);
      assert m in b <==> m in multiset(b);
    }
    if MaskOf(a, c).Some? {
      var m := MaskOf(a, c).value;
      var i :| 0 <= i < |b| && b[i] == m;
      assert Masks(b, c);
    }
    if MaskOf(b, c).Some? {
      var m := MaskOf(b, c).value;
      assert m in a;
      var i :| 0 <= i < |a| && a[i] == m;
      assert Masks(a, c);
      var k :| 0 <= k < |a| && a[k] == MaskOf(a, c).value;
      assert a[i].column == a[k].column;
    }
  }

  /** One more mask changes one column, from the value it had before any mask. */
  lemma MaskedRowMore(n: Name, row: Row, masks: seq<Mask>, m: Mask, salt: string, hash: string -> string)
    requires !Masks(masks, m.column)
    requires Of(m.column) == n ==> m.column.name in row
    ensures MaskedRow(n, row, masks + [m], salt, hash) ==
      if Of(m.column) == n
      then MaskedRow(n, row, masks, salt, hash)[m.column.name := Eval(Written(m, salt), Cell(MaskedRow(n, row, masks, salt, hash), m.column.name), hash)]
      else MaskedRow(n, row, masks, salt, hash)
  {
    hide Eval, Written, Masks;
    var more := masks + [m];
    assert more[..|more| - 1] == masks;
    MaskOfUnmasked(masks, m.column);
    forall name | name in row
      ensures Column(n.schema, n.table, name) == m.column <==> Of(m.column) == n && name == m.column.name
      ensures Column(n.schema, n.table, name) != m.column ==>
        MaskOf(more, Column(n.schema, n.table, name)) == MaskOf(masks, Column(n.schema, n.table, name))
      ensures Column(n.schema, n.table, name) == m.column ==> MaskOf(more, Column(n.schema, n.table, name)) == Some(m)
    {
    }
  }

  lemma MaskedMore(db: Tables, masks: seq<Mask>, m: Mask, salt: string, server: Server)
    requires Shaped(db) && !Masks(masks, m.column) && Present(db, m.column)
    ensures Exec(Update(m.column, Written(m, salt)), Masked(db, masks, salt, server.hash), server) == Some(Masked(db, masks + [m], salt, server.hash))
  {
    hide Eval, Written, Masks, MaskedRow;
    var before, after := Masked(db, masks, salt, server.hash), Masked(db, masks + [m], salt, server.hash);
    var c := m.column;
    forall n | n in db
      ensures after[n].rows == if n == Of(c) then Replaced(before[n].rows, c.name, Written(m, salt), server.hash) else before[n].rows
    {
      forall i | 0 <= i < |db[n].rows|
        ensures MaskedRow(n, db[n].rows[i], masks + [m], salt, server.hash) ==
          if n == Of(c)
          then before[n].rows[i][c.name := Eval(Written(m, salt), Cell(before[n].rows[i], c.name), server.hash)]
          else before[n].rows[i]
      {
        MaskedRowMore(n, db[n].rows[i], masks, m, salt, server.hash);
      }
    }
    assert before[Of(c) := before[Of(c)].(rows := Replaced(before[Of(c)].rows, c.name, Written(m, salt), server.hash))] == after;
  }

  lemma NothingMasked(db: Tables, salt: string, hash: string -> string)
    ensures Masked(db, [], salt, hash) == db
  {
    forall n | n in db
      ensures Masked(db, [], salt, hash)[n] == db[n]
    {
      var rows := MaskedRows(n, db[n].rows, [], salt, hash);
      forall i | 0 <= i < |db[n].rows| ensures rows[i] == db[n].rows[i] {
        assert rows[i] == MaskedRow(n, db[n].rows[i], [], salt, hash);
      }
    }
  }

  lemma MaskedPresent(db: Tables, masks: seq<Mask>, salt: string, hash: string -> string, c: Column)
    ensures Present(Masked(db, masks, salt, hash), c) <==> Present(db, c)
  {}

  lemma AbsentUpdateFails(c: Column, e: Expression, db: Tables, server: Server)
    requires !Present(db, c)
    ensures Exec(Update(c, e), db, server) == None
  {}

  /** Running the updates one after another masks every cell from its own first value. */
  lemma {:induction false} UpdatesRun(db: Tables, masks: seq<Mask>, salt: string, server: Server)
    requires Shaped(db) && Distinct(masks)
    ensures Run(Updates(masks, salt), db, server) == if MasksPresent(db, masks) then Some(Masked(db, masks, salt, server.hash)) else None
  {
    hide Exec, Run, Masked, Present, Shaped, Written;
    if masks == [] {
      NothingMasked(db, salt, server.hash);
      NothingRun(db, server);
      assert Updates(masks, salt) == [];
    } else {
      var rest, m := masks[..|masks| - 1], masks[|masks| - 1];
      UpdatesRun(db, rest, salt, server);
      assert masks == rest + [m];
      var u := Update(m.column, Written(m, salt));
      assert Updates(masks, salt) == Updates(rest, salt) + [u];
      RunJoined(Updates(rest, salt), [u], db, server);
      OneRun(u, Masked(db, rest, salt, server.hash), server);
      assert MasksPresent(db, masks) <==> MasksPresent(db, rest) && Present(db, m.column) by {
        if MasksPresent(db, masks) {
          forall i | 0 <= i < |rest| ensures Present(db, rest[i].column) { assert masks[i] == rest[i]; }
          assert Present(db, masks[|masks| - 1].column);
        }
      }
      MaskedPresent(db, rest, salt, server.hash, m.column);
      if Present(db, m.column) {
        assert !Masks(rest, m.column);
        MaskedMore(db, rest, m, salt, server);
      } else {
        AbsentUpdateFails(m.column, Written(m, salt), Masked(db, rest, salt, server.hash), server);
      }
    }
  }

  lemma {:induction false} ChecksRun(db: Tables, relationships: seq<Relationship>, server: Server)
    ensures Run(Checks(relationships), db, server) == if AllHold(db, relationships) then Some(db) else None
  {
    hide Run, Holds;
    if relationships == [] {
      NothingRun(db, server);
      assert Checks(relationships) == [];
    } else {
      var rest, r := relationships[..|relationships| - 1], relationships[|relationships| - 1];
      ChecksRun(db, rest, server);
      assert Checks(relationships) == Checks(rest) + [Check(r)];
      RunJoined(Checks(rest), [Check(r)], db, server);
      OneRun(Check(r), db, server);
      assert AllHold(db, relationships) <==> AllHold(db, rest) && Holds(db, r) by {
        if AllHold(db, relationships) {
          forall i | 0 <= i < |rest| ensures Holds(db, rest[i]) { assert relationships[i] == rest[i]; }
          assert Holds(db, relationships[|relationships| - 1]);
        }
      }
    }
  }

  /** The whole transaction: it commits exactly when every named column exists and the
      foreign keys and relationships hold on the sanitized copy, and it leaves that copy. */
  lemma RunExact(g: Grant, salt: string, db: Tables, server: Server)
    requires Shaped(db) && Distinct(g.masking)
    ensures Run(Statements(g, salt), db, server) ==
      if SubsetsPresent(db, g.subsets) && MasksPresent(db, g.masking) &&
         AllHold(Sanitized(g, salt, db, server), server.keys) && AllHold(Sanitized(g, salt, db, server), g.relationships)
      then Some(Sanitized(g, salt, db, server)) else None
  {
    hide Run, Exec, Filtered, Masked, Shaped, Present, Holds, Distinct;
    var a, b, c, d, e, f := [Begin, TriggersOff], Deletes(g.subsets), Updates(g.masking, salt), [TriggersOn, Revalidate], Checks(g.relationships), [Commit];
    assert Statements(g, salt) == a + (b + (c + (d + (e + f))));
    Quiet(db, server);
    RunJoined(a, b + (c + (d + (e + f))), db, server);
    DeletesRun(db, g.subsets, server);
    RunJoined(b, c + (d + (e + f)), db, server);
    var filtered := Filtered(db, g.subsets);
    FilteredShaped(db, g.subsets);
    UpdatesRun(filtered, g.masking, salt, server);
    RunJoined(c, d + (e + f), filtered, server);
    forall k: Column ensures Present(filtered, k) <==> Present(db, k) { FilteredPresent(db, g.subsets, k); }
    assert MasksPresent(filtered, g.masking) <==> MasksPresent(db, g.masking);
    var clean := Sanitized(g, salt, db, server);
    Quiet(clean, server);
    RunJoined(d, e + f, clean, server);
    ChecksRun(clean, g.relationships, server);
    RunJoined(e, f, clean, server);
  }

  lemma Quiet(db: Tables, server: Server)
    ensures Run([Begin, TriggersOff], db, server) == Some(db)
    ensures Run([TriggersOn, Revalidate], db, server) == if AllHold(db, server.keys) then Some(db) else None
    ensures Run([Commit], db, server) == Some(db)
  {
    hide Holds;
    assert [Begin, TriggersOff][1..] == [TriggersOff];
    assert [TriggersOn, Revalidate][1..] == [Revalidate];
    OneRun(TriggersOff, db, server);
    OneRun(Revalidate, db, server);
    OneRun(Commit, db, server);
  }

  // ---------------------------------------------------------------- relationships

  /** What a token mask makes of a set of values. */
  function Tokens(domain: string, values: set<string>, salt: string, hash: string -> string): set<string> {
    set v | v in values :: hash(salt + ":" + domain + ":" + v)
  }

  lemma MaskedCell(db: Tables, masks: seq<Mask>, salt: string, hash: string -> string, c: Column, i: nat)
    requires Shaped(db) && Present(db, c) && i < |db[Of(c)].rows|
    ensures Cell(Masked(db, masks, salt, hash)[Of(c)].rows[i], c.name) == Hidden(Of(c), c.name, Cell(db[Of(c)].rows[i], c.name), masks, salt, hash)
  {}

  lemma UnmaskedValues(db: Tables, masks: seq<Mask>, salt: string, hash: string -> string, c: Column)
    requires Shaped(db) && Present(db, c) && !Masks(masks, c)
    ensures Values(Masked(db, masks, salt, hash), c) == Values(db, c)
  {
    hide Masks, Shaped;
    MaskOfUnmasked(masks, c);
    assert Column(Of(c).schema, Of(c).table, c.name) == c;
    forall i | 0 <= i < |db[Of(c)].rows|
      ensures Cell(Masked(db, masks, salt, hash)[Of(c)].rows[i], c.name) == Cell(db[Of(c)].rows[i], c.name)
    {
      MaskedCell(db, masks, salt, hash, c, i);
    }
  }

  lemma TokenValues(db: Tables, masks: seq<Mask>, salt: string, hash: string -> string, m: Mask)
    requires Shaped(db) && Present(db, m.column) && MaskOf(masks, m.column) == Some(m) && m.strategy == "Token"
    ensures Values(Masked(db, masks, salt, hash), m.column) == Tokens(m.domain, Values(db, m.column), salt, hash)
  {
    hide Shaped, Masked, MaskOf;
    var c := m.column;
    var rows, after := db[Of(c)].rows, Masked(db, masks, salt, hash);
    assert Column(Of(c).schema, Of(c).table, c.name) == c;
    assert Of(c) in after && |after[Of(c)].rows| == |rows| by { MaskedSize(db, masks, salt, hash, c); }
    forall i | 0 <= i < |rows|
      ensures Cell(after[Of(c)].rows[i], c.name) ==
        if Cell(rows[i], c.name).None? then None else Some(hash(salt + ":" + m.domain + ":" + Cell(rows[i], c.name).value))
    {
      MaskedCell(db, masks, salt, hash, c, i);
    }
    forall v | v in Tokens(m.domain, Values(db, c), salt, hash)
      ensures v in Values(after, c)
    {
      var x :| x in Values(db, c) && v == hash(salt + ":" + m.domain + ":" + x);
      var i :| 0 <= i < |rows| && Cell(rows[i], c.name).Some? && Cell(rows[i], c.name).value == x;
      assert Cell(after[Of(c)].rows[i], c.name) == Some(v);
    }
    forall v | v in Values(after, c)
      ensures v in Tokens(m.domain, Values(db, c), salt, hash)
    {
      var i :| 0 <= i < |rows| && Cell(after[Of(c)].rows[i], c.name).Some? && Cell(after[Of(c)].rows[i], c.name).value == v;
      assert Cell(rows[i], c.name).value in Values(db, c);
    }
  }

  lemma MaskedSize(db: Tables, masks: seq<Mask>, salt: string, hash: string -> string, c: Column)
    requires Present(db, c)
    ensures Of(c) in Masked(db, masks, salt, hash) && |Masked(db, masks, salt, hash)[Of(c)].rows| == |db[Of(c)].rows|
  {}

  /** The hash gives different tokens to the different values the two ends hold. */
  ghost predicate Separates(hash: string -> string, salt: string, masks: seq<Mask>, db: Tables, r: Relationship) {
    MaskOf(masks, r.from).Some? ==> Apart(hash, salt + ":" + MaskOf(masks, r.from).value.domain + ":", Values(db, r.from), Values(db, r.to))
  }

  ghost predicate Apart(hash: string -> string, prefix: string, a: set<string>, b: set<string>) {
    forall x, y :: x in a && y in b && hash(prefix + x) == hash(prefix + y) ==> x == y
  }

  lemma DistinctMaskOf(masks: seq<Mask>, i: nat)
    requires Distinct(masks) && i < |masks|
    ensures MaskOf(masks, masks[i].column) == Some(masks[i])
  {
    MaskOfUnmasked(masks, masks[i].column);
    assert Masks(masks, masks[i].column);
    var k :| 0 <= k < |masks| && masks[k] == MaskOf(masks, masks[i].column).value;
    assert masks[k].column == masks[i].column;
  }

  /** Masking keeps every relationship the grant may declare; and it makes none hold that
      did not hold before, as long as the hash separates the values of its two ends. */
  lemma MaskingKeepsRelationship(masks: seq<Mask>, salt: string, hash: string -> string, db: Tables, r: Relationship)
    requires Shaped(db) && Distinct(masks) && Paired(masks, r)
    ensures Holds(db, r) ==> Holds(Masked(db, masks, salt, hash), r)
    ensures Separates(hash, salt, masks, db, r) && Holds(Masked(db, masks, salt, hash), r) ==> Holds(db, r)
  {
    hide Shaped, Masked, MaskOf, Distinct, Values;
    MaskedPresent(db, masks, salt, hash, r.from);
    MaskedPresent(db, masks, salt, hash, r.to);
    if Present(db, r.from) && Present(db, r.to) {
      if !Masks(masks, r.from) && !Masks(masks, r.to) {
        UnmaskedValues(db, masks, salt, hash, r.from);
        UnmaskedValues(db, masks, salt, hash, r.to);
      } else {
        var i, j :| 0 <= i < |masks| && 0 <= j < |masks| && masks[i].column == r.from && masks[j].column == r.to &&
          masks[i].strategy == "Token" && masks[j].strategy == "Token" && masks[i].domain == masks[j].domain;
        DistinctMaskOf(masks, i);
        DistinctMaskOf(masks, j);
        TokenValues(db, masks, salt, hash, masks[i]);
        TokenValues(db, masks, salt, hash, masks[j]);
        TokensOrdered(masks[i].domain, Values(db, r.from), Values(db, r.to), salt, hash);
      }
    }
  }

  lemma TokensOrdered(domain: string, a: set<string>, b: set<string>, salt: string, hash: string -> string)
    ensures a <= b ==> Tokens(domain, a, salt, hash) <= Tokens(domain, b, salt, hash)
    ensures Apart(hash, salt + ":" + domain + ":", a, b) && Tokens(domain, a, salt, hash) <= Tokens(domain, b, salt, hash) ==> a <= b
  {
    if Tokens(domain, a, salt, hash) <= Tokens(domain, b, salt, hash) {
      forall x | x in a
        ensures exists y :: y in b && hash(salt + ":" + domain + ":" + x) == hash(salt + ":" + domain + ":" + y)
      {
        assert hash(salt + ":" + domain + ":" + x) in Tokens(domain, a, salt, hash);
      }
    }
  }

  /** The named columns exist, and the sanitized copy keeps the server's own foreign keys. */
  predicate Runnable(g: Grant, salt: string, db: Tables, server: Server) {
    SubsetsPresent(db, g.subsets) && MasksPresent(db, g.masking) && AllHold(Sanitized(g, salt, db, server), server.keys)
  }

  ghost predicate AllSeparated(g: Grant, salt: string, db: Tables, server: Server) {
    forall i :: 0 <= i < |g.relationships| ==> Separates(server.hash, salt, g.masking, Filtered(db, g.subsets), g.relationships[i])
  }

  /** For an accepted grant only the data decide: relationships that hold on the filtered
      copy never fail the transaction, and without colliding tokens they fail it exactly
      when they do not hold there. */
  lemma CommitsExactly(g: Grant, salt: string, db: Tables, server: Server)
    requires Shaped(db) && Accepted(g)
    ensures var result := Run(Statements(g, salt), db, server);
      && (result.Some? ==> result.value == Sanitized(g, salt, db, server))
      && (Runnable(g, salt, db, server) && AllHold(Filtered(db, g.subsets), g.relationships) ==> result.Some?)
      && (AllSeparated(g, salt, db, server) ==> (result.Some? <==> Runnable(g, salt, db, server) && AllHold(Filtered(db, g.subsets), g.relationships)))
  {
    hide Shaped, Distinct, Paired, Masks, ValidColumn, GoodMask, GoodSubset, Filtered, Masked, Holds, Separates, Run, Statements;
    RunExact(g, salt, db, server);
    FilteredShaped(db, g.subsets);
    var filtered := Filtered(db, g.subsets);
    forall i | 0 <= i < |g.relationships|
      ensures Holds(filtered, g.relationships[i]) ==> Holds(Sanitized(g, salt, db, server), g.relationships[i])
      ensures Separates(server.hash, salt, g.masking, filtered, g.relationships[i]) && Holds(Sanitized(g, salt, db, server), g.relationships[i]) ==> Holds(filtered, g.relationships[i])
    {
      assert GoodRelationship(g.masking, g.relationships[i]);
      MaskingKeepsRelationship(g.masking, salt, server.hash, filtered, g.relationships[i]);
    }
  }

  // ---------------------------------------------------------------- order

  lemma KeptPermuted(n: Name, row: Row, a: seq<Subset>, b: seq<Subset>)
    requires multiset(a) == multiset(b) && Kept(n, row, a)
    ensures Kept(n, row, b)
  {
    forall i | 0 <= i < |b| && Of(b[i].column) == n
      ensures Cell(row, b[i].column.name) == Some(b[i].equals)
    {
      assert b[i] in multiset(a);
      var k :| 0 <= k < |a| && a[k] == b[i];
    }
  }

  lemma {:induction false} SurvivorsPermuted(n: Name, rows: seq<Row>, a: seq<Subset>, b: seq<Subset>)
    requires multiset(a) == multiset(b)
    ensures Survivors(n, rows, a) == Survivors(n, rows, b)
  {
    hide Kept;
    if rows != [] {
      SurvivorsPermuted(n, rows[1..], a, b);
      if Kept(n, rows[0], a) { KeptPermuted(n, rows[0], a, b); }
      if Kept(n, rows[0], b) { KeptPermuted(n, rows[0], b, a); }
    }
  }

  lemma SanitizedPermuted(g: Grant, other: Grant, salt: string, db: Tables, server: Server)
    requires Distinct(g.masking)
    requires multiset(g.masking) == multiset(other.masking) && multiset(g.subsets) == multiset(other.subsets)
    ensures Sanitized(g, salt, db, server) == Sanitized(other, salt, db, server)
  {
    hide Distinct, Survivors, MaskOf;
    forall n | n in db ensures Survivors(n, db[n].rows, g.subsets) == Survivors(n, db[n].rows, other.subsets) {
      SurvivorsPermuted(n, db[n].rows, g.subsets, other.subsets);
    }
    assert Filtered(db, g.subsets) == Filtered(db, other.subsets);
    var filtered := Filtered(db, g.subsets);
    forall n | n in filtered
      ensures MaskedRows(n, filtered[n].rows, g.masking, salt, server.hash) == MaskedRows(n, filtered[n].rows, other.masking, salt, server.hash)
    {
      forall i | 0 <= i < |filtered[n].rows|
        ensures MaskedRow(n, filtered[n].rows[i], g.masking, salt, server.hash) == MaskedRow(n, filtered[n].rows[i], other.masking, salt, server.hash)
      {
        MaskedRowPermuted(n, filtered[n].rows[i], g.masking, other.masking, salt, server.hash);
      }
    }
  }

  lemma MaskedRowPermuted(n: Name, row: Row, a: seq<Mask>, b: seq<Mask>, salt: string, hash: string -> string)
    requires Distinct(a) && multiset(a) == multiset(b)
    ensures MaskedRow(n, row, a, salt, hash) == MaskedRow(n, row, b, salt, hash)
  {
    hide Distinct, MaskOf, Eval;
    forall name | name in row
      ensures Hidden(n, name, row[name], a, salt, hash) == Hidden(n, name, row[name], b, salt, hash)
    {
      MaskOfPermuted(a, b, Column(n.schema, n.table, name));
    }
  }

  /** Masks and filters may be listed in any order. */
  lemma OrderIrrelevant(g: Grant, other: Grant, salt: string, db: Tables, server: Server)
    requires Shaped(db) && Distinct(g.masking) && g.relationships == other.relationships
    requires multiset(g.masking) == multiset(other.masking) && multiset(g.subsets) == multiset(other.subsets)
    ensures Run(Statements(g, salt), db, server) == Run(Statements(other, salt), db, server)
  {
    hide Run, Statements, Shaped, Distinct, Sanitized, AllHold, Present;
    DistinctPermuted(g.masking, other.masking);
    RunExact(g, salt, db, server);
    RunExact(other, salt, db, server);
    SanitizedPermuted(g, other, salt, db, server);
    SubsetsPresentPermuted(db, g.subsets, other.subsets);
    SubsetsPresentPermuted(db, other.subsets, g.subsets);
    MasksPresentPermuted(db, g.masking, other.masking);
    MasksPresentPermuted(db, other.masking, g.masking);
  }

  lemma SubsetsPresentPermuted(db: Tables, a: seq<Subset>, b: seq<Subset>)
    requires multiset(a) == multiset(b)
    ensures SubsetsPresent(db, a) ==> SubsetsPresent(db, b)
  {
    forall i | 0 <= i < |b| && SubsetsPresent(db, a) ensures Present(db, b[i].column) {
      assert b[i] in multiset(a);
      var k :| 0 <= k < |a| && a[k] == b[i];
    }
  }

  lemma MasksPresentPermuted(db: Tables, a: seq<Mask>, b: seq<Mask>)
    requires multiset(a) == multiset(b)
    ensures MasksPresent(db, a) ==> MasksPresent(db, b)
  {
    forall i | 0 <= i < |b| && MasksPresent(db, a) ensures Present(db, b[i].column) {
      assert b[i] in multiset(a);
      var k :| 0 <= k < |a| && a[k] == b[i];
    }
  }


  lemma DistinctPermuted(a: seq<Mask>, b: seq<Mask>)
    requires Distinct(a) && multiset(a) == multiset(b)
    ensures Distinct(b)
  {
    forall i, j | 0 <= i < j < |b|
      ensures b[i].column != b[j].column
    {
      if b[i].column == b[j].column {
        assert b[i] in multiset(a) && b[j] in multiset(a);
        var k :| 0 <= k < |a| && a[k] == b[i];
        var l :| 0 <= l < |a| && a[l] == b[j];
        TwiceDiffers(b, i, j);
        AtMostOnce(a, k);
      }
    }
  }

  lemma TwiceDiffers(s: seq<Mask>, i: nat, j: nat)
    requires i < j < |s|
    ensures s[i] == s[j] ==> 2 <= multiset(s)[s[i]]
  {
    assert s == s[..j] + s[j..];
    assert s[i] in s[..j] && s[j] in s[j..];
  }

  lemma AtMostOnce(s: seq<Mask>, k: nat)
    requires Distinct(s) && k < |s|
    ensures multiset(s)[s[k]] <= 1
  {
    var a, b := s[..k], s[k + 1..];
    assert s == a + ([s[k]] + b);
    assert s[k] !in a && s[k] !in b;
    assert multiset(s) == multiset(a) + multiset([s[k]]) + multiset(b);
  }

  // ---------------------------------------------------------------- quoting

  /** A name or value as SQL text: `mark` around it, and doubled inside it. */
  function Quote(mark: char, s: string): string { [mark] + Doubled(mark, s) + [mark] }

  function Doubled(mark: char, s: string): string {
    if s == "" then "" else (if s[0] == mark then [mark, mark] else [s[0]]) + Doubled(mark, s[1..])
  }

  /** Reads the rest of a quoted text: what it stands for, and what follows it. */
  function ReadRest(mark: char, text: string): Option<(string, string)> {
    if text == "" then None
    else if text[0] != mark then
      var rest := ReadRest(mark, text[1..]);
      if rest.None? then None else Some(([text[0]] + rest.value.0, rest.value.1))
    else if 1 < |text| && text[1] == mark then
      var rest := ReadRest(mark, text[2..]);
      if rest.None? then None else Some(([mark] + rest.value.0, rest.value.1))
    else Some(("", text[1..]))
  }

  function ReadQuoted(mark: char, text: string): Option<(string, string)> {
    if text == "" || text[0] != mark then None else ReadRest(mark, text[1..])
  }

  lemma {:induction false} DoubledReads(mark: char, s: string, after: string)
    requires after == "" || after[0] != mark
    ensures ReadRest(mark, Doubled(mark, s) + [mark] + after) == Some((s, after))
  {
    var text := Doubled(mark, s) + [mark] + after;
    if s == "" {
      assert text == [mark] + after;
    } else {
      var next := Doubled(mark, s[1..]) + [mark] + after;
      DoubledReads(mark, s[1..], after);
      assert s == [s[0]] + s[1..];
      if s[0] == mark {
        assert text == [mark, mark] + next;
        assert text[2..] == next;
      } else {
        assert text == [s[0]] + next;
        assert text[1..] == next;
      }
    }
  }

  /** Whatever a name or value holds, reading its quoted form gives it back and stops
      exactly where it was closed. */
  lemma QuoteReads(mark: char, s: string, after: string)
    requires after == "" || after[0] != mark
    ensures ReadQuoted(mark, Quote(mark, s) + after) == Some((s, after))
  {
    DoubledReads(mark, s, after);
    assert (Quote(mark, s) + after)[1..] == Doubled(mark, s) + [mark] + after;
  }
}
