/**
 * A minimal stand-in for Criteria and Criteria.Builder, whose source is not
 * part of this model.  It keeps only what BatchQuery does to a builder: it
 * appends atoms, arguments, combinators and inner groups to two sequences in
 * call order, and records one sort directive.  No rendered SQL text is
 * claimed: the selection is the token stream a Criteria would render.
 *
 * Assumption (not visible in the available source): the arguments of an
 * inner criteria are spliced into the parent's argument list at the position
 * where its group is appended.
 */
module Criteria {
  import opened Wrappers

  /** The comparison operator of an atom. */
  datatype Wildcard = Equals | MoreThanEqual | LessThan

  /** One node of a selection token stream. */
  datatype Token =
    | Atom(column: string, op: Wildcard)
    | Group(inner: seq<Token>, innerArgs: seq<string>)
    | AndOp
    | OrOp

  predicate IsOperand(t: Token) {
    t.Atom? || t.Group?
  }

  predicate IsCombinator(t: Token) {
    t.AndOp? || t.OrOp?
  }

  /**
   * What a sort directive orders by: a plain column, or the ORDER_BY_LIVENESS
   * CASE expression, whose rank for each status code is Liveness.LivenessRank.
   */
  datatype SortKey = Column(name: string) | ByLiveness

  /** sortBy(column) alone leaves the direction to the store's default. */
  datatype Direction = Unspecified | Ascending | Descending

  datatype SortOrder = SortOrder(key: SortKey, direction: Direction)

  /** The frozen result of Builder.Build. */
  datatype Criteria = Criteria(nodes: seq<Token>, args: seq<string>, sort: Option<SortOrder>)

  /** A Criteria with nothing appended has no selection at all (select-all). */
  function Selection(c: Criteria): Option<seq<Token>> {
    if c.nodes == [] then None else Some(c.nodes)
  }

  // ---------------------------------------------------------------------
  // Shape of a token stream

  /** Operands and combinators alternate, starting and ending with an operand. */
  ghost predicate Alternates(ts: seq<Token>) {
    && (ts == [] || |ts| % 2 == 1)
    && forall i :: 0 <= i < |ts| ==> (IsOperand(ts[i]) <==> i % 2 == 0)
  }

  /**
   * Alternation at every nesting level, and no empty group. How Criteria
   * renders an empty inner criteria is not part of this model; it gives an
   * empty (or null) group, which is no valid predicate.
   */
  ghost predicate WellFormed(ts: seq<Token>)
    decreases ts
  {
    && Alternates(ts)
    && forall i :: 0 <= i < |ts| && ts[i].Group? ==> ts[i].inner != [] && WellFormed(ts[i].inner)
  }

  /** No leading, trailing or doubled combinator. */
  ghost predicate NoStrayCombinator(ts: seq<Token>) {
    && (ts != [] ==> IsOperand(ts[0]) && IsOperand(ts[|ts| - 1]))
    && forall i :: 0 <= i < |ts| - 1 ==> !(IsCombinator(ts[i]) && IsCombinator(ts[i + 1]))
  }

  /** Number of combinators at the top level of a stream. */
  function Combinators(ts: seq<Token>): nat {
    if ts == [] then 0 else (if IsCombinator(ts[0]) then 1 else 0) + Combinators(ts[1..])
  }

  /** Number of operands (atoms and groups) at the top level of a stream. */
  function Operands(ts: seq<Token>): nat {
    if ts == [] then 0 else (if IsOperand(ts[0]) then 1 else 0) + Operands(ts[1..])
  }

  /** Number of `?` placeholders a stream renders to: its atoms, nested ones included. */
  function Placeholders(ts: seq<Token>): nat
    decreases ts
  {
    if ts == [] then 0
    else
      (match ts[0]
       case Atom(_, _) => 1
       case Group(inner, _) => Placeholders(inner)
       case _ => 0)
      + Placeholders(ts[1..])
  }

  /**
   * The argument list binds the stream's placeholders left to right: each
   * atom takes the next argument, and each group takes, at its own position,
   * exactly the arguments it carries, which in turn bind its inner stream.
   */
  ghost predicate Aligned(ts: seq<Token>, args: seq<string>)
    decreases ts
  {
    if ts == [] then args == []
    else match ts[0]
      case Atom(_, _) => |args| >= 1 && Aligned(ts[1..], args[1..])
      case Group(inner, innerArgs) =>
        && Aligned(inner, innerArgs)
        && innerArgs <= args
        && Aligned(ts[1..], args[|innerArgs|..])
      case _ => Aligned(ts[1..], args)
  }

  lemma {:induction false} AlternatesHasNoStrayCombinator(ts: seq<Token>)
    requires Alternates(ts)
    ensures NoStrayCombinator(ts)
  {
    if ts != [] {
      assert IsOperand(ts[|ts| - 1]);
    }
  }

  /** Between n sibling operands there are exactly n - 1 combinators. */
  lemma {:induction false} AlternatesCount(ts: seq<Token>)
    requires Alternates(ts) && ts != []
    ensures Combinators(ts) == Operands(ts) - 1
  {
    if |ts| > 1 {
      var rest := ts[2..];
      assert Alternates(rest) by {
        forall i | 0 <= i < |rest| ensures IsOperand(rest[i]) <==> i % 2 == 0 {
          assert rest[i] == ts[i + 2];
        }
      }
      AlternatesCount(rest);
      assert ts[1..][1..] == rest;
    }
  }

  lemma {:induction false} CombinatorsAppend(a: seq<Token>, b: seq<Token>)
    ensures Combinators(a + b) == Combinators(a) + Combinators(b)
  {
    if a != [] {
      assert (a + b)[1..] == a[1..] + b;
      CombinatorsAppend(a[1..], b);
    } else {
      assert a + b == b;
    }
  }

  /** An aligned argument list has one argument per placeholder. */
  lemma {:induction false} AlignedCount(ts: seq<Token>, args: seq<string>)
    requires Aligned(ts, args)
    ensures |args| == Placeholders(ts)
    decreases ts
  {
    if ts != [] {
      match ts[0]
      case Atom(_, _) =>
        AlignedCount(ts[1..], args[1..]);
      case Group(inner, innerArgs) =>
        AlignedCount(inner, innerArgs);
        AlignedCount(ts[1..], args[|innerArgs|..]);
      case _ =>
        AlignedCount(ts[1..], args);
    }
  }

  /** Concatenating two aligned streams and their arguments stays aligned. */
  lemma {:induction false} AlignedAppend(a: seq<Token>, x: seq<string>, b: seq<Token>, y: seq<string>)
    requires Aligned(a, x) && Aligned(b, y)
    ensures Aligned(a + b, x + y)
    decreases a
  {
    if a == [] {
      assert a + b == b && x + y == y;
    } else {
      assert (a + b)[0] == a[0] && (a + b)[1..] == a[1..] + b;
      match a[0]
      case Atom(_, _) =>
        AlignedAppend(a[1..], x[1..], b, y);
        assert (x + y)[1..] == x[1..] + y;
      case Group(inner, innerArgs) =>
        AlignedAppend(a[1..], x[|innerArgs|..], b, y);
        assert (x + y)[|innerArgs|..] == x[|innerArgs|..] + y;
      case _ =>
        AlignedAppend(a[1..], x, b, y);
    }
  }

  /** Joining two non-empty alternating streams with a combinator alternates. */
  lemma AlternatesJoin(a: seq<Token>, op: Token, b: seq<Token>)
    requires Alternates(a) && a != [] && Alternates(b) && b != [] && IsCombinator(op)
    ensures Alternates(a + [op] + b)
  {
    var r := a + [op] + b;
    forall i | 0 <= i < |r| ensures IsOperand(r[i]) <==> i % 2 == 0 {
      if i > |a| {
        assert r[i] == b[i - |a| - 1];
      }
    }
  }

  /** Joining two non-empty well-formed streams with a combinator is well formed. */
  lemma WellFormedJoin(a: seq<Token>, op: Token, b: seq<Token>)
    requires WellFormed(a) && a != [] && WellFormed(b) && b != [] && IsCombinator(op)
    ensures WellFormed(a + [op] + b)
  {
    AlternatesJoin(a, op, b);
    var r := a + [op] + b;
    forall i | 0 <= i < |r| && r[i].Group? ensures WellFormed(r[i].inner) {
      if i > |a| {
        assert r[i] == b[i - |a| - 1];
      }
    }
  }

  // ---------------------------------------------------------------------
  // The builder

  /**
   * Criteria.Builder: appends to its node and argument sequences in call
   * order.  Java's fluent `return this` is left out; each call is a
   * statement.
   */
  class Builder {
    var nodes: seq<Token>
    var args: seq<string>
    var sort: Option<SortOrder>

    constructor ()
      ensures nodes == [] && args == [] && sort == None
    {
      nodes, args, sort := [], [], None;
    }

    method WithSelection(column: string, op: Wildcard)
      modifies this
      ensures nodes == old(nodes) + [Atom(column, op)]
      ensures args == old(args) && sort == old(sort)
    {
      nodes := nodes + [Atom(column, op)];
    }

    method WithArgument(value: string)
      modifies this
      ensures args == old(args) + [value]
      ensures nodes == old(nodes) && sort == old(sort)
    {
      args := args + [value];
    }

    method And()
      modifies this
      ensures nodes == old(nodes) + [AndOp]
      ensures args == old(args) && sort == old(sort)
    {
      nodes := nodes + [AndOp];
    }

    method Or()
      modifies this
      ensures nodes == old(nodes) + [OrOp]
      ensures args == old(args) && sort == old(sort)
    {
      nodes := nodes + [OrOp];
    }

    /** Appends a built criteria as one group; its arguments follow at the same position. */
    method WithInnerCriteria(c: Criteria)
      modifies this
      ensures nodes == old(nodes) + [Group(c.nodes, c.args)]
      ensures args == old(args) + c.args
      ensures sort == old(sort)
    {
      nodes := nodes + [Group(c.nodes, c.args)];
      args := args + c.args;
    }

    /** sortBy(key), followed by ascending() or descending() when a direction is given. */
    method SortBy(key: SortKey, direction: Direction)
      modifies this
      ensures sort == Some(SortOrder(key, direction))
      ensures nodes == old(nodes) && args == old(args)
    {
      sort := Some(SortOrder(key, direction));
    }

    method Build() returns (c: Criteria)
      ensures c.nodes == nodes && c.args == args && c.sort == sort
    {
      c := Criteria(nodes, args, sort);
    }
  }
}
