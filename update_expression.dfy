/** DynamoDB `SET` update expressions as the update handlers build them: "SET ", then one
    "ref = :name, " per assigned attribute, then `rstrip(", ")`; the value of each
    assignment goes to the placeholder ":name". */
module UpdateExpressions {
  import opened Strings
  import opened Seqs
  import opened JsonValue

  /** One assignment: the attribute reference written left of "=" (the attribute name, or
      an alias such as "#name"), the placeholder name, and the value. */
  datatype Assignment = Assignment(ref: string, name: string, value: Json)

  /** An assignment of an attribute by its own name. */
  function Direct(name: string, value: Json): Assignment
  {
    Assignment(name, name, value)
  }

  function Placeholder(name: string): string { ":" + name }

  /** "ref = :name". */
  function Clause(a: Assignment): (c: string)
    ensures c == a.ref + " = " + Placeholder(a.name)
  {
    a.ref + " = :" + a.name
  }

  /** A clause determines its assignment's reference and placeholder name when the reference
      holds no space, as every reference the handlers write ("title", "#name", ...) does: the
      reference ends at the first space, and the placeholder name follows " = :". */
  lemma ClauseDeterminesAssignment(a: Assignment, b: Assignment)
    requires ' ' !in a.ref && ' ' !in b.ref
    requires Clause(a) == Clause(b)
    ensures a.ref == b.ref && a.name == b.name
  {
    FirstSpace(a);
    FirstSpace(b);
    var c := Clause(a);
    assert |a.ref| == |b.ref|;
    assert a.ref == c[..|a.ref|] == b.ref;
    assert a.name == c[|a.ref| + 4..] == b.name;
  }

  /** In a clause the first space is the one right after the reference. */
  lemma FirstSpace(a: Assignment)
    requires ' ' !in a.ref
    ensures Clause(a)[|a.ref|] == ' '
    ensures forall i :: 0 <= i < |a.ref| ==> Clause(a)[i] != ' '
  {
    forall i | 0 <= i < |a.ref|
      ensures Clause(a)[i] != ' '
    {
      assert Clause(a)[i] == a.ref[i];
    }
  }

  /** The characters `rstrip(", ")` removes. */
  const SeparatorChars: set<char> := {',', ' '}

  /** The expression text before the final `rstrip`: "SET " and every clause followed by
      ", ". */
  function Pending(assignments: seq<Assignment>): string
    decreases |assignments|
  {
    if |assignments| == 0 then "SET "
    else Pending(assignments[..|assignments| - 1]) + Clause(assignments[|assignments| - 1]) + ", "
  }

  /** The value map: each assignment's value under its placeholder (a later assignment to the
      same placeholder wins, as with dictionary stores). */
  function ValuesOf(assignments: seq<Assignment>): (values: map<string, Json>)
    ensures forall k :: k in values <==> exists i :: 0 <= i < |assignments| && k == Placeholder(assignments[i].name)
    decreases |assignments|
  {
    if |assignments| == 0 then map[]
    else
      var init := assignments[..|assignments| - 1];
      var last := assignments[|assignments| - 1];
      assert forall i :: 0 <= i < |init| ==> init[i] == assignments[i];
      ValuesOf(init)[Placeholder(last.name) := last.value]
  }

  /** Appending one assignment extends the pending text by its clause and the value map by
      its value. */
  lemma Step(done: seq<Assignment>, a: Assignment)
    ensures Pending(done + [a]) == Pending(done) + Clause(a) + ", "
    ensures ValuesOf(done + [a]) == ValuesOf(done)[Placeholder(a.name) := a.value]
  {
    assert (done + [a])[..|done|] == done;
  }

  /** Appends "f = :f, " to the expression and stores `value` under ":f", keeping the
      expression and the value map in step with the assignments made so far. */
  method AddClause(f: string, value: Json, expr: string, values: map<string, Json>, ghost done: seq<Assignment>)
    returns (expr': string, values': map<string, Json>, ghost done': seq<Assignment>)
    requires expr == Pending(done) && values == ValuesOf(done)
    ensures expr' == Pending(done + [Direct(f, value)]) && values' == ValuesOf(done + [Direct(f, value)])
    ensures done' == done + [Direct(f, value)]
  {
    Step(done, Direct(f, value));
    expr' := expr + f + " = :" + f + ", ";
    values' := values[":" + f := value];
    done' := done + [Direct(f, value)];
  }

  /** The clauses of the assignments, in order. */
  function Clauses(assignments: seq<Assignment>): (r: seq<string>)
    ensures |r| == |assignments|
    ensures forall i :: 0 <= i < |assignments| ==> r[i] == Clause(assignments[i])
  {
    Map(assignments, Clause)
  }

  /** The pending text is "SET " and the clauses joined with ", ", plus a trailing ", ". */
  lemma {:induction false} PendingJoin(assignments: seq<Assignment>)
    requires |assignments| >= 1
    ensures Pending(assignments) == "SET " + Join(Clauses(assignments), ", ") + ", "
    decreases |assignments|
  {
    var n := |assignments|;
    if n > 1 {
      var init := assignments[..n - 1];
      PendingJoin(init);
      assert Clauses(assignments) == Clauses(init) + [Clause(assignments[n - 1])];
      JoinConcat(Clauses(init), [Clause(assignments[n - 1])], ", ");
    }
  }

  /** `rstrip` removes a tail made only of stripped characters and stops at a kept one. */
  lemma {:induction false} RStripTail(x: string, tail: string, cs: set<char>)
    requires x == [] || x[|x| - 1] !in cs
    requires forall i :: 0 <= i < |tail| ==> tail[i] in cs
    ensures RStrip(x + tail, cs) == x
    decreases |tail|
  {
    if |tail| > 0 {
      var s := x + tail;
      assert s[|s| - 1] == tail[|tail| - 1];
      assert s[..|s| - 1] == x + tail[..|tail| - 1];
      RStripTail(x, tail[..|tail| - 1], cs);
    } else {
      assert x + tail == x;
    }
  }

  /** An assignment whose placeholder name ends in a character `rstrip` keeps. */
  predicate WellNamed(a: Assignment)
  {
    a.name != "" && a.name[|a.name| - 1] !in SeparatorChars
  }

  /** The finished expression: with at least one assignment, "SET " and the clauses joined
      with ", " and no trailing separator; with none, the bare "SET". */
  function Expression(assignments: seq<Assignment>): (e: string)
    requires forall i :: 0 <= i < |assignments| ==> WellNamed(assignments[i])
    ensures |assignments| >= 1 ==> e == "SET " + Join(Clauses(assignments), ", ")
    ensures |assignments| == 0 ==> e == "SET"
    ensures e[|e| - 1] !in SeparatorChars
  {
    var e := RStrip(Pending(assignments), SeparatorChars);
    if |assignments| == 0 then
      RStripTail("SET", " ", SeparatorChars);
      assert "SET" + " " == "SET ";
      e
    else
      PendingJoin(assignments);
      var clauses := Clauses(assignments);
      var a := assignments[|assignments| - 1];
      assert WellNamed(a);
      var last := clauses[|clauses| - 1];
      assert last == a.ref + " = :" + a.name;
      assert last[|last| - 1] == a.name[|a.name| - 1];
      JoinLast(clauses, ", ");
      var j := Join(clauses, ", ");
      assert j[|j| - 1] == last[|last| - 1] by {
        assert j[|j| - |last|..][|last| - 1] == j[|j| - 1];
      }
      assert ("SET " + j)[|"SET " + j| - 1] == j[|j| - 1];
      RStripTail("SET " + Join(clauses, ", "), ", ", SeparatorChars);
      assert "SET " + Join(clauses, ", ") + ", " == ("SET " + Join(clauses, ", ")) + ", ";
      e
  }

  /** A join of non-empty parts ends with the last part. */
  lemma {:induction false} JoinLast(parts: seq<string>, sep: string)
    requires |parts| >= 1
    ensures |Join(parts, sep)| >= |parts[|parts| - 1]|
    ensures Join(parts, sep)[|Join(parts, sep)| - |parts[|parts| - 1]|..] == parts[|parts| - 1]
    decreases |parts|
  {
    if |parts| > 1 {
      JoinLast(parts[1..], sep);
    }
  }
  /** No two assignments use the same attribute reference. */
  predicate DistinctRefs(a: seq<Assignment>)
  {
    forall i, j :: 0 <= i < j < |a| ==> a[i].ref != a[j].ref
  }

  /** Two lists of assignments with distinct references, none shared between them, stay
      distinct when concatenated. */
  lemma DistinctConcat(a: seq<Assignment>, b: seq<Assignment>)
    requires DistinctRefs(a) && DistinctRefs(b)
    requires forall x, y :: x in a && y in b ==> x.ref != y.ref
    ensures DistinctRefs(a + b)
  {
    var c := a + b;
    forall i, j | 0 <= i < j < |c| ensures c[i].ref != c[j].ref {
      if j < |a| {
        assert c[i] == a[i] && c[j] == a[j];
      } else if i >= |a| {
        assert c[i] == b[i - |a|] && c[j] == b[j - |a|];
      } else {
        assert c[i] in a && c[j] in b;
      }
    }
  }

  /** The attribute an assignment writes: its reference resolved through the
      `ExpressionAttributeNames` aliases. */
  function Target(a: Assignment, names: map<string, string>): string
  {
    if a.ref in names then names[a.ref] else a.ref
  }

  /** The item after DynamoDB applies the `SET` clauses in order. */
  function Apply(item: map<string, Json>, assignments: seq<Assignment>, names: map<string, string>): (r: map<string, Json>)
    ensures item.Keys <= r.Keys
    ensures forall i :: 0 <= i < |assignments| ==> Target(assignments[i], names) in r
    decreases |assignments|
  {
    if |assignments| == 0 then item
    else
      var init := assignments[..|assignments| - 1];
      var last := assignments[|assignments| - 1];
      assert forall i :: 0 <= i < |init| ==> init[i] == assignments[i];
      Apply(item, init, names)[Target(last, names) := last.value]
  }

  /** An attribute that no clause writes keeps its stored value, and stays absent when it
      was absent. */
  lemma {:induction false} ApplyKeeps(item: map<string, Json>, assignments: seq<Assignment>, names: map<string, string>, k: string)
    requires forall i :: 0 <= i < |assignments| ==> Target(assignments[i], names) != k
    ensures k in Apply(item, assignments, names) <==> k in item
    ensures k in item ==> Apply(item, assignments, names)[k] == item[k]
    decreases |assignments|
  {
    if |assignments| > 0 {
      ApplyKeeps(item, assignments[..|assignments| - 1], names, k);
    }
  }

  /** An attribute written by a clause that no later clause overwrites holds that clause's
      value. */
  lemma {:induction false} ApplySets(item: map<string, Json>, assignments: seq<Assignment>, names: map<string, string>, i: int)
    requires 0 <= i < |assignments|
    requires forall j :: i < j < |assignments| ==> Target(assignments[j], names) != Target(assignments[i], names)
    ensures Apply(item, assignments, names)[Target(assignments[i], names)] == assignments[i].value
    decreases |assignments|
  {
    var n := |assignments|;
    var init := assignments[..n - 1];
    var last := assignments[n - 1];
    assert Apply(item, assignments, names) == Apply(item, init, names)[Target(last, names) := last.value];
    if i < n - 1 {
      assert init[i] == assignments[i];
      assert forall j :: i < j < |init| ==> init[j] == assignments[j];
      ApplySets(item, init, names, i);
    }
  }
}
