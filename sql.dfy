/** Counting the '?' placeholders of prepared SQL statements built from fragments. */
module Sql {
  import opened Common
  import opened Text

  /** Number of '?' placeholders in a SQL fragment. */
  function Placeholders(s: string): nat
  {
    if |s| == 0 then 0 else Placeholders(s[..|s| - 1]) + (if s[|s| - 1] == '?' then 1 else 0)
  }

  lemma {:induction false} PlaceholdersAppend(s: string, t: string)
    ensures Placeholders(s + t) == Placeholders(s) + Placeholders(t)
    decreases |t|
  {
    if |t| == 0 {
      assert s + t == s;
    } else {
      assert (s + t)[..|s + t| - 1] == s + t[..|t| - 1];
      PlaceholdersAppend(s, t[..|t| - 1]);
    }
  }

  lemma {:induction false} NoPlaceholders(s: string)
    requires '?' !in s
    ensures Placeholders(s) == 0
    decreases |s|
  {
    if |s| > 0 {
      NoPlaceholders(s[..|s| - 1]);
    }
  }

  /** A SQL fragment without '?' followed by one placeholder. */
  lemma OnePlaceholder(s: string)
    requires '?' !in s
    ensures Placeholders(s + "?") == 1
  {
    PlaceholdersAppend(s, "?");
    NoPlaceholders(s);
    assert "?"[..0] == [];
  }

  /** Joining fragments that hold one placeholder each, with a separator that holds none, leaves one per fragment. */
  lemma {:induction false} JoinOneEach(parts: seq<string>, sep: string)
    requires '?' !in sep
    requires forall i :: 0 <= i < |parts| ==> Placeholders(parts[i]) == 1
    ensures Placeholders(Join(parts, sep)) == |parts|
    decreases |parts|
  {
    if |parts| > 1 {
      JoinOneEach(parts[1..], sep);
      PlaceholdersAppend(parts[0] + sep, Join(parts[1..], sep));
      PlaceholdersAppend(parts[0], sep);
      NoPlaceholders(sep);
    }
  }

  // ---------------------------------------------------------------------------
  // UPDATE statements built from SET clauses

  /** A SET assignment: the column and the value bound to its placeholder. */
  type Assignment = (string, string)

  /** No column name holds a placeholder of its own. */
  predicate PlainColumns(sets: seq<Assignment>)
  {
    forall j :: 0 <= j < |sets| ==> '?' !in sets[j].0
  }

  lemma PlainColumnsAppend(a: seq<Assignment>, b: seq<Assignment>)
    requires PlainColumns(a) && PlainColumns(b)
    ensures PlainColumns(a + b)
  {
    forall j | 0 <= j < |a + b|
      ensures '?' !in (a + b)[j].0
    {
      if j >= |a| {
        assert (a + b)[j] == b[j - |a|];
      }
    }
  }

  /** `"$column = ?"` for each assignment. */
  function Clauses(sets: seq<Assignment>): seq<string>
  {
    seq(|sets|, j requires 0 <= j < |sets| => sets[j].0 + " = ?")
  }

  /** The bound values, in order. */
  function Values(sets: seq<Assignment>): seq<string>
  {
    seq(|sets|, j requires 0 <= j < |sets| => sets[j].1)
  }

  lemma AssignmentsAppend(a: seq<Assignment>, b: seq<Assignment>)
    ensures Clauses(a + b) == Clauses(a) + Clauses(b)
    ensures Values(a + b) == Values(a) + Values(b)
  {
  }

  /** A prepared UPDATE: its SQL and the values bound to its placeholders, in order. */
  datatype Update = Update(sql: string, values: seq<string>)

  const Touch: string := "updated_at = NOW()"
  const WhereId: string := " WHERE id = " + "?"

  /**
   * `if (!empty($fields)) { $fields[] = "updated_at = NOW()"; $values[] = $id;
   * ... "UPDATE $table SET " . implode(', ', $fields) . " WHERE id = ?" }`:
   * no statement without clauses.
   */
  function Statement(table: string, fields: seq<string>, values: seq<string>, id: string): Option<Update>
  {
    if |fields| == 0 then None
    else Some(Update("UPDATE " + table + " SET " + Join(fields + [Touch], ", ") + WhereId, values + [id]))
  }

  /** The last element of a non-empty sequence. */
  function Last<T>(s: seq<T>): T
    requires |s| > 0
  {
    s[|s| - 1]
  }

  lemma ClausePlaceholder(column: string)
    requires '?' !in column
    ensures Placeholders(column + " = ?") == 1
  {
    assert column + " = ?" == (column + " = ") + "?";
    OnePlaceholder(column + " = ");
  }

  /**
   * An UPDATE built from assignments to plain columns has one placeholder per
   * bound value, and binds the row id last.
   */
  lemma StatementShape(table: string, sets: seq<Assignment>, id: string)
    requires '?' !in table && PlainColumns(sets) && |sets| > 0
    ensures Statement(table, Clauses(sets), Values(sets), id).Some?
    ensures Placeholders(Statement(table, Clauses(sets), Values(sets), id).value.sql)
      == |Statement(table, Clauses(sets), Values(sets), id).value.values|
    ensures Last(Statement(table, Clauses(sets), Values(sets), id).value.values) == id
  {
    var fields := Clauses(sets);
    forall j | 0 <= j < |fields|
      ensures Placeholders(fields[j]) == 1
    {
      ClausePlaceholder(sets[j].0);
    }
    JoinedClauses(fields);
    var head := "UPDATE " + table + " SET ";
    var joined := Join(fields + [Touch], ", ");
    LiteralsPlain();
    NoPlaceholders(head);
    PlaceholdersAppend(head, joined);
    PlaceholdersAppend(head + joined, WhereId);
    OnePlaceholder(" WHERE id = ");
  }

  /** The fixed fragments of an UPDATE hold no placeholder but the id's. */
  lemma LiteralsPlain()
    ensures '?' !in ", " && '?' !in Touch && '?' !in " WHERE id = " && '?' !in "UPDATE " && '?' !in " SET "
  {
  }

  /** The SET list, with the timestamp clause appended, has one placeholder per clause. */
  lemma JoinedClauses(fields: seq<string>)
    requires |fields| > 0
    requires forall j :: 0 <= j < |fields| ==> Placeholders(fields[j]) == 1
    ensures Placeholders(Join(fields + [Touch], ", ")) == |fields|
  {
    LiteralsPlain();
    JoinOneEach(fields, ", ");
    JoinSnoc(fields, ", ", Touch);
    PlaceholdersAppend(Join(fields, ", "), ", ");
    NoPlaceholders(", ");
    PlaceholdersAppend(Join(fields, ", ") + ", ", Touch);
    NoPlaceholders(Touch);
  }
}
