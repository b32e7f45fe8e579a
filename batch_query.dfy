/**
 * BatchQuery and its Builder: a query over the batches table made of an
 * optional identity constraint, an optional status constraint and an
 * optional sort directive.  The builder keeps one Criteria.Builder for the
 * whole query and one for each constraint; build() splices the constraints
 * into the main builder as groups, AND-joined when both are present.
 *
 * The Java query holds rendered text; here the selection is the token
 * stream the Criteria stand-in would render and the sort order is the sort
 * directive itself (see the Criteria module).
 */
module BatchQuery {
  import opened Wrappers
  import C = Criteria
  import opened Downloads
  import opened StatusFlags
  import opened StatusFilter
  import opened Text

  /** selection, sortOrder and selectionArguments, each possibly null. */
  datatype BatchQuery = BatchQuery(
    selection: Option<seq<C.Token>>,
    sortOrder: Option<C.SortOrder>,
    selectionArguments: Option<seq<string>>)

  /** The unconstrained query: no selection, no sort, no arguments. */
  const ALL: BatchQuery := BatchQuery(None, None, None)

  /**
   * A builder built with no constraint and no sort matches ALL in selection
   * and sort, but carries an empty argument array where ALL carries none.
   */
  lemma AllVersusEmptyBuild(cols: Columns, codes: InternalCodes, f: PublicFlags)
    ensures QueryOf(cols, codes, f, None, None, None).selection == ALL.selection == None
    ensures QueryOf(cols, codes, f, None, None, None).sortOrder == ALL.sortOrder == None
    ensures ALL.selectionArguments == None
    ensures QueryOf(cols, codes, f, None, None, None).selectionArguments == Some([])
  {
    AssembledCases(None, None);
  }

  /** What withId leaves in its fresh builder: `_id = ?` bound to the id's decimal text. */
  function IdCriteria(cols: Columns, id: int): C.Criteria {
    C.Criteria([C.Atom(cols.id, C.Equals)], [ValueOf(id)], None)
  }

  /** What withStatusFilter leaves in its fresh builder. */
  function StatusCriteria(cols: Columns, codes: InternalCodes, f: PublicFlags, mask: bv32): C.Criteria {
    C.Criteria(StatusNodes(cols, f, mask), StatusArgs(codes, f, mask), None)
  }

  // ---------------------------------------------------------------------
  // What build() splices into the main builder

  /** A constraint's tokens as one group. */
  function GroupOf(c: C.Criteria): C.Token {
    C.Group(c.nodes, c.args)
  }

  /**
   * The main builder's tokens after build(): the identity group, then `AND`
   * when a status constraint follows, then the status group.
   */
  function AssembledNodes(base: seq<C.Token>, id: Option<C.Criteria>, status: Option<C.Criteria>): seq<C.Token> {
    base
    + (if id.Some? then [GroupOf(id.value)] + (if status.Some? then [C.AndOp] else []) else [])
    + (if status.Some? then [GroupOf(status.value)] else [])
  }

  /** The main builder's arguments after build(): the identity's, then the status's. */
  function AssembledArgs(base: seq<string>, id: Option<C.Criteria>, status: Option<C.Criteria>): seq<string> {
    base
    + (if id.Some? then id.value.args else [])
    + (if status.Some? then status.value.args else [])
  }

  /**
   * On a fresh main builder the selection is: nothing when neither
   * constraint was given, the one group when only one was, and the two
   * groups joined by `AND` (identity first) when both were.
   */
  lemma AssembledCases(id: Option<C.Criteria>, status: Option<C.Criteria>)
    ensures id.None? && status.None? ==> AssembledNodes([], id, status) == []
    ensures id.Some? && status.None? ==> AssembledNodes([], id, status) == [GroupOf(id.value)]
    ensures id.None? && status.Some? ==> AssembledNodes([], id, status) == [GroupOf(status.value)]
    ensures id.Some? && status.Some? ==>
      AssembledNodes([], id, status) == [GroupOf(id.value), C.AndOp, GroupOf(status.value)]
    ensures id.None? && status.None? ==> AssembledArgs([], id, status) == []
    ensures id.Some? && status.None? ==> AssembledArgs([], id, status) == id.value.args
    ensures id.None? && status.Some? ==> AssembledArgs([], id, status) == status.value.args
    ensures id.Some? && status.Some? ==> AssembledArgs([], id, status) == id.value.args + status.value.args
  {
  }

  /** A constraint whose arguments bind its placeholders. */
  ghost predicate AlignedPart(p: Option<C.Criteria>) {
    p.Some? ==> C.Aligned(p.value.nodes, p.value.args)
  }

  /** A constraint that is aligned, non-empty and well formed on its own. */
  ghost predicate SoundPart(p: Option<C.Criteria>) {
    AlignedPart(p) && (p.Some? ==> p.value.nodes != [] && C.WellFormed(p.value.nodes))
  }

  /** One aligned constraint as a group is bound by its arguments. */
  lemma GroupAligned(c: C.Criteria)
    requires C.Aligned(c.nodes, c.args)
    ensures C.Aligned([GroupOf(c)], c.args)
  {
    assert [GroupOf(c)][1..] == [];
    assert c.args[|c.args|..] == [];
  }

  /** One sound constraint as a group is a well-formed stream. */
  lemma GroupSound(c: C.Criteria)
    requires c.nodes != [] && C.WellFormed(c.nodes)
    ensures C.WellFormed([GroupOf(c)])
  {
  }

  /** Two groups joined by `AND` alternate and are bound by both argument lists in turn. */
  lemma JoinedAligned(a: C.Criteria, b: C.Criteria)
    requires AlignedPart(Some(a)) && AlignedPart(Some(b))
    ensures C.Alternates([GroupOf(a), C.AndOp, GroupOf(b)])
    ensures C.Aligned([GroupOf(a), C.AndOp, GroupOf(b)], a.args + b.args)
  {
    GroupAligned(a);
    GroupAligned(b);
    assert C.Aligned([C.AndOp, GroupOf(b)], b.args) by {
      assert [C.AndOp, GroupOf(b)][1..] == [GroupOf(b)];
    }
    C.AlignedAppend([GroupOf(a)], a.args, [C.AndOp, GroupOf(b)], b.args);
    assert [GroupOf(a)] + [C.AndOp, GroupOf(b)] == [GroupOf(a), C.AndOp, GroupOf(b)];
  }

  /** Two sound groups joined by `AND` form a well-formed stream. */
  lemma JoinedSound(a: C.Criteria, b: C.Criteria)
    requires SoundPart(Some(a)) && SoundPart(Some(b))
    ensures C.WellFormed([GroupOf(a), C.AndOp, GroupOf(b)])
  {
    GroupSound(a);
    GroupSound(b);
    C.WellFormedJoin([GroupOf(a)], C.AndOp, [GroupOf(b)]);
    assert [GroupOf(a)] + [C.AndOp] + [GroupOf(b)] == [GroupOf(a), C.AndOp, GroupOf(b)];
  }

  /**
   * Splicing aligned constraints into a fresh main builder gives a stream
   * without stray combinators whose arguments bind its placeholders in
   * order, one each.
   */
  lemma AssembledAligned(id: Option<C.Criteria>, status: Option<C.Criteria>)
    requires AlignedPart(id) && AlignedPart(status)
    ensures C.NoStrayCombinator(AssembledNodes([], id, status))
    ensures C.Aligned(AssembledNodes([], id, status), AssembledArgs([], id, status))
    ensures |AssembledArgs([], id, status)| == C.Placeholders(AssembledNodes([], id, status))
    ensures AssembledNodes([], id, status) != [] ==>
      C.Combinators(AssembledNodes([], id, status)) == C.Operands(AssembledNodes([], id, status)) - 1
  {
    var ns := AssembledNodes([], id, status);
    var xs := AssembledArgs([], id, status);
    AssembledCases(id, status);
    if id.Some? && status.Some? {
      JoinedAligned(id.value, status.value);
      assert xs == id.value.args + status.value.args;
    } else if id.Some? {
      GroupAligned(id.value);
      assert xs == id.value.args;
    } else if status.Some? {
      GroupAligned(status.value);
      assert xs == status.value.args;
    }
    assert C.Alternates(ns);
    if ns != [] {
      C.AlternatesCount(ns);
    }
    C.AlternatesHasNoStrayCombinator(ns);
    C.AlignedCount(ns, xs);
  }

  /** build() appends one group per constraint given. */
  lemma AssembledOperands(id: Option<C.Criteria>, status: Option<C.Criteria>)
    ensures C.Operands(AssembledNodes([], id, status)) == (if id.Some? then 1 else 0) + (if status.Some? then 1 else 0)
  {
    AssembledCases(id, status);
    if id.Some? && status.Some? {
      var g := GroupOf(status.value);
      assert [g][1..] == [];
      assert [C.AndOp, g][1..] == [g];
      assert C.Operands([g]) == 1;
      assert C.Operands([C.AndOp, g]) == 1;
      assert [GroupOf(id.value), C.AndOp, g][1..] == [C.AndOp, g];
    } else if id.Some? {
      assert [GroupOf(id.value)][1..] == [];
    } else if status.Some? {
      assert [GroupOf(status.value)][1..] == [];
    }
  }

  /** Splicing sound constraints into a fresh main builder gives a well-formed stream. */
  lemma AssembledSound(id: Option<C.Criteria>, status: Option<C.Criteria>)
    requires SoundPart(id) && SoundPart(status)
    ensures C.WellFormed(AssembledNodes([], id, status))
  {
    AssembledCases(id, status);
    if id.Some? && status.Some? {
      JoinedSound(id.value, status.value);
    } else if id.Some? {
      GroupSound(id.value);
    } else if status.Some? {
      GroupSound(status.value);
    }
  }

  /** A status constraint ends the assembled stream as its last group. */
  lemma AssembledEndsWithStatus(id: Option<C.Criteria>, status: C.Criteria)
    ensures var ns := AssembledNodes([], id, Some(status));
      ns != [] && ns[|ns| - 1] == GroupOf(status)
  {
    AssembledCases(id, Some(status));
  }

  /** An empty group anywhere makes a stream ill formed. */
  lemma EmptyGroupIllFormed(ts: seq<C.Token>, i: nat)
    requires i < |ts| && ts[i] == C.Group([], [])
    ensures !C.WellFormed(ts)
  {
    assert ts[i].Group? && ts[i].inner == [];
  }

  /** withId's constraint is sound. */
  lemma IdSound(cols: Columns, id: int)
    ensures SoundPart(Some(IdCriteria(cols, id)))
  {
    var c := IdCriteria(cols, id);
    assert c.nodes[1..] == [] && c.args[1..] == [];
  }

  /**
   * withStatusFilter's constraint is always aligned; it is sound exactly
   * when the mask selects some category, and empty otherwise.
   */
  lemma StatusSound(cols: Columns, codes: InternalCodes, f: PublicFlags, mask: bv32)
    ensures AlignedPart(Some(StatusCriteria(cols, codes, f, mask)))
    ensures StatusesFrom(f, mask) != [] ==> SoundPart(Some(StatusCriteria(cols, codes, f, mask)))
    ensures StatusesFrom(f, mask) == [] ==> StatusCriteria(cols, codes, f, mask) == C.Criteria([], [], None)
  {
    StatusFilterShape(cols, codes, f, mask);
    if StatusesFrom(f, mask) != [] {
      OrJoinedShape(cols, StatusesFrom(f, mask));
    }
  }

  /**
   * The query built from a fresh builder after any combination of withId
   * and withStatusFilter: its selection is null exactly when neither was
   * called, and otherwise a stream whose arguments bind its placeholders,
   * the identity's argument first.  The stream is well formed unless the
   * status mask selected nothing: then it ends in an empty group.
   */
  function QueryOf(cols: Columns, codes: InternalCodes, f: PublicFlags,
                   id: Option<int>, mask: Option<bv32>, sort: Option<C.SortOrder>): BatchQuery
  {
    var idPart := if id.Some? then Some(IdCriteria(cols, id.value)) else None;
    var statusPart := if mask.Some? then Some(StatusCriteria(cols, codes, f, mask.value)) else None;
    var built := C.Criteria(AssembledNodes([], idPart, statusPart), AssembledArgs([], idPart, statusPart), sort);
    BatchQuery(C.Selection(built), sort, Some(built.args))
  }

  lemma QuerySound(cols: Columns, codes: InternalCodes, f: PublicFlags,
                   id: Option<int>, mask: Option<bv32>, sort: Option<C.SortOrder>)
    ensures QueryOf(cols, codes, f, id, mask, sort).selection.None? <==> id.None? && mask.None?
    ensures QueryOf(cols, codes, f, id, mask, sort).sortOrder == sort
    ensures QueryOf(cols, codes, f, id, mask, sort).selectionArguments.Some?
    ensures var q := QueryOf(cols, codes, f, id, mask, sort);
      q.selection.Some? ==>
        && C.NoStrayCombinator(q.selection.value)
        && C.Aligned(q.selection.value, q.selectionArguments.value)
        && (C.WellFormed(q.selection.value) <==> mask.None? || StatusesFrom(f, mask.value) != [])
        && C.Operands(q.selection.value) == (if id.Some? then 1 else 0) + (if mask.Some? then 1 else 0)
        && C.Combinators(q.selection.value) == C.Operands(q.selection.value) - 1
    ensures mask.Some? && StatusesFrom(f, mask.value) == [] ==>
      var q := QueryOf(cols, codes, f, id, mask, sort);
      q.selection.Some? && q.selection.value[|q.selection.value| - 1] == C.Group([], [])
    ensures id.Some? ==> QueryOf(cols, codes, f, id, mask, sort).selectionArguments.value[0] == ValueOf(id.value)
  {
    var idPart := if id.Some? then Some(IdCriteria(cols, id.value)) else None;
    var statusPart := if mask.Some? then Some(StatusCriteria(cols, codes, f, mask.value)) else None;
    var ns := AssembledNodes([], idPart, statusPart);
    if id.Some? {
      IdSound(cols, id.value);
    }
    if mask.Some? {
      StatusSound(cols, codes, f, mask.value);
    }
    AssembledCases(idPart, statusPart);
    AssembledAligned(idPart, statusPart);
    AssembledOperands(idPart, statusPart);
    if mask.None? || StatusesFrom(f, mask.value) != [] {
      AssembledSound(idPart, statusPart);
    } else {
      AssembledEndsWithStatus(idPart, statusPart.value);
      assert GroupOf(statusPart.value) == C.Group([], []);
      EmptyGroupIllFormed(ns, |ns| - 1);
    }
  }

  // ---------------------------------------------------------------------
  // The switch of withStatusFilter

  /** The FAILED case's inner criteria, built on a fresh builder. */
  method BuildFailedRange(cols: Columns) returns (range: C.Criteria)
    ensures range == FailedRange(cols)
  {
    var b := new C.Builder();
    b.WithSelection(cols.status, C.MoreThanEqual);
    b.WithArgument(ValueOf(LowEndFailedStatusCode));
    b.And();
    b.WithSelection(cols.status, C.LessThan);
    b.WithArgument(ValueOf(HighEndFailedStatusCode));
    range := b.Build();
  }

  /** `withSelection(COLUMN_STATUS, EQUALS).withArgument(String.valueOf(code))`. */
  method AppendStatusEquals(sb: C.Builder, cols: Columns, code: int)
    modifies sb
    ensures sb.nodes == old(sb.nodes) + [C.Atom(cols.status, C.Equals)]
    ensures sb.args == old(sb.args) + [ValueOf(code)]
    ensures sb.sort == old(sb.sort)
  {
    sb.WithSelection(cols.status, C.Equals);
    sb.WithArgument(ValueOf(code));
  }

  /** The PAUSED case: four EQUALS atoms on the status column joined by `OR`. */
  method AppendPaused(sb: C.Builder, cols: Columns, codes: InternalCodes)
    modifies sb
    ensures sb.nodes == old(sb.nodes) + CategoryNodes(cols, Paused)
    ensures sb.args == old(sb.args) + CategoryArgs(codes, Paused)
    ensures sb.sort == old(sb.sort)
  {
    var a := C.Atom(cols.status, C.Equals);
    AppendStatusEquals(sb, cols, codes.pausedByApp);
    sb.Or();
    AppendStatusEquals(sb, cols, codes.waitingToRetry);
    assert sb.nodes == old(sb.nodes) + [a, C.OrOp, a];
    sb.Or();
    AppendStatusEquals(sb, cols, codes.waitingForNetwork);
    assert sb.nodes == old(sb.nodes) + [a, C.OrOp, a, C.OrOp, a];
    sb.Or();
    AppendStatusEquals(sb, cols, codes.queuedForWifi);
  }

  /** One case of the switch: appends the category's fragment and arguments to sb. */
  method AppendCategory(sb: C.Builder, cols: Columns, codes: InternalCodes, status: Category)
    modifies sb
    ensures sb.nodes == old(sb.nodes) + CategoryNodes(cols, status)
    ensures sb.args == old(sb.args) + CategoryArgs(codes, status)
    ensures sb.sort == old(sb.sort)
  {
    match status {
      case Pending => AppendStatusEquals(sb, cols, codes.pending);
      case Running => AppendStatusEquals(sb, cols, codes.running);
      case Paused => AppendPaused(sb, cols, codes);
      case Successful => AppendStatusEquals(sb, cols, codes.success);
      case Failed =>
        var range := BuildFailedRange(cols);
        sb.WithInnerCriteria(range);
    }
  }

  // ---------------------------------------------------------------------
  // The builder

  /**
   * BatchQuery.Builder.  The status codes, public flags and column names it
   * reads from other classes are fixed when it is created.  Java's fluent
   * `return this` is left out; each call is a statement.
   */
  class Builder {
    const codes: InternalCodes
    const flags: PublicFlags
    const cols: Columns
    const builder: C.Builder
    var criteriaIdBuilder: C.Builder?
    var criteriaStatusBuilder: C.Builder?

    /** The three criteria builders are distinct objects. */
    ghost predicate Valid()
      reads this
    {
      && criteriaIdBuilder != builder
      && criteriaStatusBuilder != builder
      && (criteriaIdBuilder != null ==> criteriaIdBuilder != criteriaStatusBuilder)
    }

    /** The identity constraint so far, if withId was called. */
    function IdPart(): Option<C.Criteria>
      reads this, criteriaIdBuilder
    {
      if criteriaIdBuilder == null then None
      else Some(C.Criteria(criteriaIdBuilder.nodes, criteriaIdBuilder.args, criteriaIdBuilder.sort))
    }

    /** The status constraint so far, if withStatusFilter was called. */
    function StatusPart(): Option<C.Criteria>
      reads this, criteriaStatusBuilder
    {
      if criteriaStatusBuilder == null then None
      else Some(C.Criteria(criteriaStatusBuilder.nodes, criteriaStatusBuilder.args, criteriaStatusBuilder.sort))
    }

    constructor (codes: InternalCodes, flags: PublicFlags, cols: Columns)
      ensures Valid() && fresh(builder)
      ensures this.codes == codes && this.flags == flags && this.cols == cols
      ensures builder.nodes == [] && builder.args == [] && builder.sort == None
      ensures IdPart() == None && StatusPart() == None
    {
      this.codes, this.flags, this.cols := codes, flags, cols;
      builder := new C.Builder();
      criteriaIdBuilder, criteriaStatusBuilder := null, null;
    }

    /** withId: a fresh identity constraint replaces any earlier one. */
    method WithId(id: int)
      requires Valid()
      modifies this
      ensures Valid() && fresh(criteriaIdBuilder)
      ensures IdPart() == Some(IdCriteria(cols, id))
      ensures criteriaStatusBuilder == old(criteriaStatusBuilder)
    {
      var b := new C.Builder();
      criteriaIdBuilder := b;
      b.WithSelection(cols.id, C.Equals);
      b.WithArgument(ValueOf(id));
      assert b.nodes == [C.Atom(cols.id, C.Equals)] && b.args == [ValueOf(id)];
    }

    /** withSortAscendingBy: sortBy(column).ascending() on the main builder. */
    method WithSortAscendingBy(sortColumn: string)
      requires Valid()
      modifies builder
      ensures builder.sort == Some(C.SortOrder(C.Column(sortColumn), C.Ascending))
      ensures builder.nodes == old(builder.nodes) && builder.args == old(builder.args)
    {
      builder.SortBy(C.Column(sortColumn), C.Ascending);
    }

    /** withSortDescendingBy: sortBy(column).descending() on the main builder. */
    method WithSortDescendingBy(sortColumn: string)
      requires Valid()
      modifies builder
      ensures builder.sort == Some(C.SortOrder(C.Column(sortColumn), C.Descending))
      ensures builder.nodes == old(builder.nodes) && builder.args == old(builder.args)
    {
      builder.SortBy(C.Column(sortColumn), C.Descending);
    }

    /**
     * withSortByLiveness: sortBy(ORDER_BY_LIVENESS) with no direction; the
     * rank of each status is Liveness.LivenessRank.
     */
    method WithSortByLiveness()
      requires Valid()
      modifies builder
      ensures builder.sort == Some(C.SortOrder(C.ByLiveness, C.Unspecified))
      ensures builder.nodes == old(builder.nodes) && builder.args == old(builder.args)
    {
      builder.SortBy(C.ByLiveness, C.Unspecified);
    }

    /**
     * withStatusFilter: a fresh status constraint replaces any earlier one.
     * For each listed category the switch appends its fragment, then `OR`
     * when isNotLastIn says more follow.
     */
    method WithStatusFilter(mask: bv32)
      requires Valid()
      modifies this
      ensures Valid() && fresh(criteriaStatusBuilder)
      ensures StatusPart() == Some(StatusCriteria(cols, codes, flags, mask))
      ensures criteriaIdBuilder == old(criteriaIdBuilder)
    {
      var sb := new C.Builder();
      criteriaStatusBuilder := sb;
      var statuses := BuildStatusesFrom(flags, mask);
      for i := 0 to |statuses|
        invariant sb.nodes == LoopNodes(cols, statuses, i)
        invariant sb.args == LoopArgs(codes, statuses[..i])
        invariant sb.sort == None
        invariant criteriaStatusBuilder == sb && criteriaIdBuilder == old(criteriaIdBuilder)
      {
        var status := statuses[i];
        LoopStep(cols, codes, statuses, i);
        AppendCategory(sb, cols, codes, status);
        if IsNotLastIn(statuses, status) {
          sb.Or();
        }
      }
      assert statuses[..|statuses|] == statuses;
    }

    /**
     * build: splices the identity group, `AND` when a status group follows,
     * and the status group into the main builder, then reads selection,
     * sort and arguments off the built criteria.
     */
    method Build() returns (q: BatchQuery)
      requires Valid()
      modifies builder
      ensures builder.nodes == AssembledNodes(old(builder.nodes), old(IdPart()), old(StatusPart()))
      ensures builder.args == AssembledArgs(old(builder.args), old(IdPart()), old(StatusPart()))
      ensures builder.sort == old(builder.sort)
      ensures q == BatchQuery(C.Selection(C.Criteria(builder.nodes, builder.args, builder.sort)),
                              builder.sort, Some(builder.args))
    {
      if criteriaIdBuilder != null {
        var idCriteria := criteriaIdBuilder.Build();
        builder.WithInnerCriteria(idCriteria);
        if criteriaStatusBuilder != null {
          builder.And();
        }
      }
      if criteriaStatusBuilder != null {
        var statusCriteria := criteriaStatusBuilder.Build();
        builder.WithInnerCriteria(statusCriteria);
      }
      var criteria := builder.Build();
      q := BatchQuery(C.Selection(criteria), criteria.sort, Some(criteria.args));
    }
  }

  // ---------------------------------------------------------------------
  // Using the builder

  /** Which of the three sort setters a caller invokes last, if any. */
  datatype SortCall = NoSortCall | AscendingBy(column: string) | DescendingBy(column: string) | ByLivenessCall

  /** The sort directive the chosen setter leaves on the main builder, or none. */
  function SortOf(call: SortCall): Option<C.SortOrder> {
    match call
    case NoSortCall => None
    case AscendingBy(c) => Some(C.SortOrder(C.Column(c), C.Ascending))
    case DescendingBy(c) => Some(C.SortOrder(C.Column(c), C.Descending))
    case ByLivenessCall => Some(C.SortOrder(C.ByLiveness, C.Unspecified))
  }

  /**
   * A fresh builder given an optional withId, an optional withStatusFilter
   * and an optional call of one sort setter, in that order, then built: the
   * result is QueryOf, whose shape QuerySound describes.
   */
  method BuildWith(codes: InternalCodes, flags: PublicFlags, cols: Columns,
                   id: Option<int>, mask: Option<bv32>, sort: SortCall) returns (q: BatchQuery)
    ensures q == QueryOf(cols, codes, flags, id, mask, SortOf(sort))
  {
    var b := new Builder(codes, flags, cols);
    if id.Some? {
      b.WithId(id.value);
    }
    if mask.Some? {
      b.WithStatusFilter(mask.value);
    }
    match sort {
      case NoSortCall =>
      case AscendingBy(c) => b.WithSortAscendingBy(c);
      case DescendingBy(c) => b.WithSortDescendingBy(c);
      case ByLivenessCall => b.WithSortByLiveness();
    }
    q := b.Build();
  }

  /** A fresh builder built at once: no selection and no sort, as ALL, but an empty argument list. */
  method EmptyBuilderQuery(codes: InternalCodes, flags: PublicFlags, cols: Columns) returns (q: BatchQuery)
    ensures q.selection == ALL.selection && q.sortOrder == ALL.sortOrder
    ensures q.selectionArguments == Some([])
  {
    var b := new Builder(codes, flags, cols);
    q := b.Build();
  }

  /**
   * withId(id), withStatusFilter(STATUS_RUNNING), withSortByLiveness():
   * the identity group AND the running group, the id's text first.
   */
  method IdAndRunningQuery(codes: InternalCodes, flags: PublicFlags, cols: Columns, id: int) returns (q: BatchQuery)
    requires DisjointFlags(flags)
    ensures q.selection == Some([C.Group([C.Atom(cols.id, C.Equals)], [ValueOf(id)]), C.AndOp,
                                 C.Group([C.Atom(cols.status, C.Equals)], [ValueOf(codes.running)])])
    ensures q.selectionArguments == Some([ValueOf(id), ValueOf(codes.running)])
    ensures q.sortOrder == Some(C.SortOrder(C.ByLiveness, C.Unspecified))
  {
    var b := new Builder(codes, flags, cols);
    b.WithId(id);
    b.WithStatusFilter(flags.running);
    b.WithSortByLiveness();
    StatusesFromSingleFlag(flags, Running);
    SingleCategoryLoop(cols, codes, Running);
    assert StatusArgs(codes, flags, flags.running) == [ValueOf(codes.running)];
    AssembledCases(b.IdPart(), b.StatusPart());
    q := b.Build();
    assert b.builder.args == [ValueOf(id)] + [ValueOf(codes.running)] == [ValueOf(id), ValueOf(codes.running)];
  }

  /** withId twice: the later id replaces the earlier one. */
  method LastIdWins(codes: InternalCodes, flags: PublicFlags, cols: Columns, first: int, second: int)
    returns (q: BatchQuery)
    ensures q.selection == Some([C.Group([C.Atom(cols.id, C.Equals)], [ValueOf(second)])])
    ensures q.selectionArguments == Some([ValueOf(second)])
  {
    var b := new Builder(codes, flags, cols);
    b.WithId(first);
    b.WithId(second);
    AssembledCases(b.IdPart(), b.StatusPart());
    q := b.Build();
  }

  /**
   * withId(id), withStatusFilter(0): the status builder exists though
   * nothing was appended to it, so build() still adds `AND` and an empty
   * group after the identity group, and the selection is not well formed.
   */
  method EmptyMaskQuery(codes: InternalCodes, flags: PublicFlags, cols: Columns, id: int) returns (q: BatchQuery)
    ensures q.selection == Some([C.Group([C.Atom(cols.id, C.Equals)], [ValueOf(id)]), C.AndOp, C.Group([], [])])
    ensures q.selectionArguments == Some([ValueOf(id)])
    ensures q.selection.Some? && !C.WellFormed(q.selection.value)
  {
    var b := new Builder(codes, flags, cols);
    b.WithId(id);
    b.WithStatusFilter(0);
    NoFlags(cols, codes, flags);
    AssembledCases(b.IdPart(), b.StatusPart());
    q := b.Build();
    assert b.builder.args == [ValueOf(id)] + [] == [ValueOf(id)];
    EmptyGroupIllFormed(q.selection.value, 2);
  }
}
