/**
 * Chemical-composition lookup (`buscar_composicao_quimica`): scan the tables
 * VizieR returns, in table order and then column order, for the first column
 * whose name contains `logOH` or `O_H`, and report its first-row value.
 *
 * The service is a parameter of the caller; here its reply is an input.
 */
module Composition {
  import opened Wrappers
  import opened Text

  /** One column of a returned table: its name and, when the table has a row,
      the rendered value of that row's cell (`None` for a table with no rows,
      where indexing row 0 raises). */
  datatype Column = Column(name: string, first: Option<string>)

  datatype Table = Table(columns: seq<Column>)

  /** `vizier.query_object` either raises or returns a list of tables. */
  datatype VizierReply = Raised | Tables(tables: seq<Table>)

  /** The case-sensitive abundance-marker test of line 97. */
  predicate IsAbundanceColumn(c: Column) {
    Contains(c.name, "logOH") || Contains(c.name, "O_H")
  }

  predicate NoAbundanceColumn(cols: seq<Column>) {
    forall k :: 0 <= k < |cols| ==> !IsAbundanceColumn(cols[k])
  }

  /** All columns, table by table, in the order the nested loops visit them. */
  function Flatten(tables: seq<Table>): (cols: seq<Column>)
  {
    if tables == [] then [] else tables[0].columns + Flatten(tables[1..])
  }

  /** The first abundance column, if any. */
  function FirstAbundanceColumn(cols: seq<Column>): (r: Option<Column>)
  {
    if cols == [] then None
    else if IsAbundanceColumn(cols[0]) then Some(cols[0])
    else FirstAbundanceColumn(cols[1..])
  }

  /** The text reported for a value found in the catalogue. */
  function AbundanceText(value: string): string {
    "log(O/H) ≈ " + value
  }

  /** What the lookup returns for a reply: nothing when the query raised, when
      no column matches, or when the first matching column's table has no row;
      otherwise the formatted first-row value of the first matching column. */
  function CompositionOf(reply: VizierReply): (r: Option<string>)
    ensures r.Some? ==> reply.Tables?
    ensures r.Some? && reply.Tables? ==>
      exists k :: && 0 <= k < |Flatten(reply.tables)|
                  && IsAbundanceColumn(Flatten(reply.tables)[k])
                  && NoAbundanceColumn(Flatten(reply.tables)[..k])
                  && Flatten(reply.tables)[k].first.Some?
                  && r.value == AbundanceText(Flatten(reply.tables)[k].first.value)
  {
    match reply
    case Raised => None
    case Tables(ts) =>
      var cols := Flatten(ts);
      FirstAbundanceColumnSpec(cols);
      match FirstAbundanceColumn(cols)
      case None => None
      case Some(c) => if c.first.Some? then Some(AbundanceText(c.first.value)) else None
  }

  /** The first abundance column is a matching column, and every column before
      it does not match; there is none exactly when no column matches. */
  lemma {:induction false} FirstAbundanceColumnSpec(cols: seq<Column>)
    ensures FirstAbundanceColumn(cols).None? <==> NoAbundanceColumn(cols)
    ensures FirstAbundanceColumn(cols).Some? ==>
      exists k :: (0 <= k < |cols| && cols[k] == FirstAbundanceColumn(cols).value
                   && IsAbundanceColumn(cols[k]) && NoAbundanceColumn(cols[..k]))
  {
    if cols != [] && !IsAbundanceColumn(cols[0]) {
      FirstAbundanceColumnSpec(cols[1..]);
      if FirstAbundanceColumn(cols).Some? {
        var k :| 0 <= k < |cols[1..]| && cols[1..][k] == FirstAbundanceColumn(cols).value
          && IsAbundanceColumn(cols[1..][k]) && NoAbundanceColumn(cols[1..][..k]);
        assert cols[..k + 1] == [cols[0]] + cols[1..][..k];
        assert cols[k + 1] == FirstAbundanceColumn(cols).value;
      }
    } else if cols != [] {
      assert cols[0] == FirstAbundanceColumn(cols).value && NoAbundanceColumn(cols[..0]);
    }
  }

  /** A matching column preceded only by non-matching ones is the first match,
      whatever follows it. */
  lemma {:induction false} FirstAbundanceColumnAt(pre: seq<Column>, c: Column, post: seq<Column>)
    requires NoAbundanceColumn(pre) && IsAbundanceColumn(c)
    ensures FirstAbundanceColumn(pre + [c] + post) == Some(c)
  {
    if pre != [] {
      assert (pre + [c] + post)[1..] == pre[1..] + [c] + post;
      FirstAbundanceColumnAt(pre[1..], c, post);
    }
  }

  /** No matching column anywhere means no match. */
  lemma {:induction false} FirstAbundanceColumnNone(cols: seq<Column>)
    requires NoAbundanceColumn(cols)
    ensures FirstAbundanceColumn(cols) == None
  {
    if cols != [] {
      FirstAbundanceColumnNone(cols[1..]);
    }
  }

  /** Flattening the first `i + 1` tables adds table `i`'s columns. */
  lemma {:induction false} FlattenSnoc(ts: seq<Table>, i: nat)
    requires i < |ts|
    ensures Flatten(ts[..i + 1]) == Flatten(ts[..i]) + ts[i].columns
  {
    if i > 0 {
      assert ts[..i + 1][1..] == ts[1..][..i];
      assert ts[..i][1..] == ts[1..][..i - 1];
      FlattenSnoc(ts[1..], i - 1);
    } else {
      assert ts[..1][1..] == [];
    }
  }

  /** The columns of tables `i` onwards follow those of the first `i` tables. */
  lemma {:induction false} FlattenSplit(ts: seq<Table>, i: nat)
    requires i <= |ts|
    ensures Flatten(ts) == Flatten(ts[..i]) + Flatten(ts[i..])
  {
    if i > 0 {
      assert ts[..i][1..] == ts[1..][..i - 1];
      assert ts[i..] == ts[1..][i - 1..];
      FlattenSplit(ts[1..], i - 1);
    } else {
      assert ts[..0] == [];
    }
  }

  /** The lookup reports a catalogue value exactly when the query succeeded,
      some column matches, and the first matching column's table has a row. */
  lemma CompositionSomeIff(reply: VizierReply)
    ensures CompositionOf(reply).Some? <==>
      reply.Tables? && !NoAbundanceColumn(Flatten(reply.tables))
      && (var c := FirstAbundanceColumn(Flatten(reply.tables)); c.Some? && c.value.first.Some?)
  {
    if reply.Tables? {
      FirstAbundanceColumnSpec(Flatten(reply.tables));
    }
  }

  /** A matching column reached by the nested loops, after only non-matching
      ones, is the first match of the whole reply. */
  lemma FoundFirst(ts: seq<Table>, i: nat, j: nat)
    requires i < |ts| && j < |ts[i].columns|
    requires NoAbundanceColumn(Flatten(ts[..i]) + ts[i].columns[..j])
    requires IsAbundanceColumn(ts[i].columns[j])
    ensures FirstAbundanceColumn(Flatten(ts)) == Some(ts[i].columns[j])
  {
    var cols := ts[i].columns;
    var pre := Flatten(ts[..i]) + cols[..j];
    var post := cols[j + 1..] + Flatten(ts[i + 1..]);
    FlattenSplit(ts, i);
    assert ts[i..] == [ts[i]] + ts[i + 1..];
    assert Flatten(ts[i..]) == cols + Flatten(ts[i + 1..]);
    assert cols == cols[..j] + [cols[j]] + cols[j + 1..];
    assert Flatten(ts) == pre + [cols[j]] + post;
    FirstAbundanceColumnAt(pre, cols[j], post);
  }

  /** The nested loops of lines 95-99, with the early return of line 99 and the
      `None` of line 102 for a raised query (line 100) or no match. */
  method ScanComposition(reply: VizierReply) returns (r: Option<string>)
    ensures r == CompositionOf(reply)
  {
    if reply.Raised? {
      return None;
    }
    var ts := reply.tables;
    var i := 0;
    while i < |ts|
      invariant 0 <= i <= |ts|
      invariant NoAbundanceColumn(Flatten(ts[..i]))
    {
      var cols := ts[i].columns;
      var j := 0;
      while j < |cols|
        invariant 0 <= j <= |cols|
        invariant NoAbundanceColumn(Flatten(ts[..i]) + cols[..j])
      {
        if IsAbundanceColumn(cols[j]) {
          FoundFirst(ts, i, j);
          if cols[j].first.None? {
            // Reading row 0 of a table without rows raises; the handler returns None.
            return None;
          }
          return Some(AbundanceText(cols[j].first.value));
        }
        assert Flatten(ts[..i]) + cols[..j + 1] == (Flatten(ts[..i]) + cols[..j]) + [cols[j]];
        j := j + 1;
      }
      FlattenSnoc(ts, i);
      assert cols[..j] == cols;
      i := i + 1;
    }
    assert ts[..i] == ts;
    FirstAbundanceColumnNone(Flatten(ts));
    r := None;
  }
}
