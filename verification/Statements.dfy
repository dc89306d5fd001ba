// What the statements of a DDL do to a table's columns, once and when they are run again.
module Statements {
  import opened Wrappers

  // ----- Statements -----

  // The Snowflake type is a function of TiDB's type name, precision and scale.
  datatype Type = Type(name: string, precision: string, scale: string)

  datatype Action =
    | SetType(tp: Type, notNull: bool)
    | DropDefault
    | DropNotNull
    | SetNotNull

  // A column key is the name Snowflake resolves the quoted identifier to.
  datatype Statement =
    | Add(key: string, tp: Type, notNull: bool)
    | Drop(key: string)
    | Rename(key: string, to: string)
    | Modify(key: string, actions: seq<Action>)
    | TruncateTable
    | DropTableIfExists

  // ----- What they do to the columns -----

  datatype Col = Col(tp: Type, nullable: bool)
  type Columns = map<string, Col>

  function Act(c: Col, a: Action): Col {
    match a
    case SetType(tp, notNull) => Col(tp, c.nullable && !notNull)
    case DropDefault => c
    case DropNotNull => c.(nullable := true)
    case SetNotNull => c.(nullable := false)
  }

  function ActAll(c: Col, actions: seq<Action>): Col {
    if actions == [] then c else Act(ActAll(c, actions[..|actions| - 1]), actions[|actions| - 1])
  }

  // An ALTER fails if its column is missing, or a name it introduces is taken. TRUNCATE and
  // DROP IF EXISTS do not change columns that anything is still merged into.
  function RunOne(i: Columns, s: Statement): Option<Columns> {
    match s
    case Add(k, tp, notNull) => if k in i then None else Some(i[k := Col(tp, !notNull)])
    case Drop(k) => if k in i then Some(i - {k}) else None
    case Rename(k, to) => if k in i && to !in i then Some((i - {k})[to := i[k]]) else None
    case Modify(k, actions) => if k in i then Some(i[k := ActAll(i[k], actions)]) else None
    case TruncateTable => Some(i)
    case DropTableIfExists => Some(i)
  }

  function RunAll(i: Columns, ss: seq<Statement>): Option<Columns> {
    if ss == [] then Some(i)
    else
      match RunAll(i, ss[..|ss| - 1])
      case None => None
      case Some(j) => RunOne(j, ss[|ss| - 1])
  }

  lemma {:induction false} RunOn(i: Columns, a: seq<Statement>, b: seq<Statement>)
    ensures RunAll(i, a + b) == match RunAll(i, a) case None => None case Some(j) => RunAll(j, b)
  {
    if b == [] {
      assert a + b == a;
    } else {
      assert (a + b)[..|a + b| - 1] == a + b[..|b| - 1];
      RunOn(i, a, b[..|b| - 1]);
    }
  }

  lemma RunSingle(i: Columns, s: Statement)
    ensures RunAll(i, [s]) == RunOne(i, s)
  {
    assert [s][..0] == [];
  }

  // ----- Running statements again -----

  // MODIFY, TRUNCATE and DROP IF EXISTS can be run again; ADD, DROP and RENAME of a column cannot.
  predicate Repeatable(s: Statement) { s.Modify? || s.TruncateTable? || s.DropTableIfExists? }

  predicate AllRepeatable(ss: seq<Statement>) { forall s | s in ss :: Repeatable(s) }

  function Touches(s: Statement): set<string> {
    match s
    case Rename(k, to) => {k, to}
    case TruncateTable => {}
    case DropTableIfExists => {}
    case _ => {s.key}
  }

  // Statements of one list touch different names, except that a renamed column may be modified.
  predicate Apart(ss: seq<Statement>) {
    forall i, j | 0 <= i < j < |ss| :: Clear(ss[i], ss[j])
  }

  predicate Clear(s: Statement, later: Statement) {
    Touches(s) !! Touches(later) || (!Repeatable(s) && Repeatable(later))
  }

  // What a list of actions sets, whatever the column was.
  function Sets(actions: seq<Action>): (Option<Type>, Option<bool>) {
    if actions == [] then (None, None)
    else
      var (tp, nullable) := Sets(actions[..|actions| - 1]);
      match actions[|actions| - 1]
      case SetType(t, notNull) => (Some(t), if notNull then Some(false) else nullable)
      case DropDefault => (tp, nullable)
      case DropNotNull => (tp, Some(true))
      case SetNotNull => (tp, Some(false))
  }

  lemma {:induction false} ActionsSet(c: Col, actions: seq<Action>)
    ensures var (tp, nullable) := Sets(actions);
            ActAll(c, actions) == Col(if tp.Some? then tp.value else c.tp, if nullable.Some? then nullable.value else c.nullable)
  {
    if actions != [] {
      ActionsSet(c, actions[..|actions| - 1]);
    }
  }

  lemma ModifyTwice(c: Col, actions: seq<Action>)
    ensures ActAll(ActAll(c, actions), actions) == ActAll(c, actions)
  {
    ActionsSet(c, actions);
    ActionsSet(ActAll(c, actions), actions);
  }

  // A statement that has run does nothing more, or can run no more.
  predicate Spent(i: Columns, s: Statement) {
    RunOne(i, s) == if Repeatable(s) then Some(i) else None
  }

  lemma SpentOnce(i: Columns, s: Statement)
    requires RunOne(i, s).Some? && (s.Rename? ==> s.key != s.to)
    ensures Spent(RunOne(i, s).value, s)
  {
    if s.Modify? {
      ModifyTwice(i[s.key], s.actions);
      var j := RunOne(i, s).value;
      assert j[s.key := ActAll(j[s.key], s.actions)] == j;
    }
  }

  // It stays spent while statements of other names run.
  lemma StaysSpent(i: Columns, s: Statement, t: Statement)
    requires Spent(i, s) && RunOne(i, t).Some?
    requires Clear(s, t)
    ensures Spent(RunOne(i, t).value, s)
  {
    var j := RunOne(i, t).value;
    if s.Modify? {
      assert s.key in i && j[s.key] == i[s.key];
      assert i[s.key := ActAll(i[s.key], s.actions)] == i;
      assert ActAll(i[s.key], s.actions) == i[s.key];
      assert j[s.key := ActAll(j[s.key], s.actions)] == j;
    }
  }

  // After the first m statements of a list, each of them is spent.
  lemma {:induction false} PrefixIsSpent(i: Columns, ss: seq<Statement>, m: nat, q: nat)
    requires Apart(ss) && q < m <= |ss| && RunAll(i, ss[..m]).Some?
    ensures Spent(RunAll(i, ss[..m]).value, ss[q])
  {
    assert ss[..m][..m - 1] == ss[..m - 1];
    var j := RunAll(i, ss[..m - 1]).value;
    if q == m - 1 {
      SpentOnce(j, ss[q]);
    } else {
      PrefixIsSpent(i, ss, m - 1, q);
      StaysSpent(j, ss[q], ss[m - 1]);
    }
  }

  // Running spent statements from the start gives the same columns as long as they are
  // repeatable, and fails at the first that is not.
  lemma {:induction false} SpentRerun(j: Columns, ss: seq<Statement>)
    requires forall s | s in ss :: Spent(j, s)
    ensures RunAll(j, ss) == if AllRepeatable(ss) then Some(j) else None
  {
    if ss != [] {
      var n := |ss| - 1;
      assert ss == ss[..n] + [ss[n]];
      assert AllRepeatable(ss) <==> AllRepeatable(ss[..n]) && Repeatable(ss[n]);
      assert Spent(j, ss[n]);
      SpentRerun(j, ss[..n]);
    }
  }

  // A run cut off after m statements and begun again ends as the uninterrupted run would if those
  // m statements are all repeatable, and fails if they are not.
  lemma RerunAfterPrefix(i: Columns, ss: seq<Statement>, m: nat)
    requires Apart(ss) && m <= |ss| && RunAll(i, ss[..m]).Some?
    ensures RunAll(RunAll(i, ss[..m]).value, ss) == if AllRepeatable(ss[..m]) then RunAll(i, ss) else None
  {
    var j := RunAll(i, ss[..m]).value;
    forall s | s in ss[..m] ensures Spent(j, s) {
      var q :| 0 <= q < m && ss[q] == s;
      PrefixIsSpent(i, ss, m, q);
    }
    SpentRerun(j, ss[..m]);
    assert ss == ss[..m] + ss[m..];
    RunOn(i, ss[..m], ss[m..]);
    RunOn(j, ss[..m], ss[m..]);
  }
}
