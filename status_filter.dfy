/**
 * The status filter of BatchQuery.Builder: the expansion of a bitmask of
 * public status flags into an ordered list of categories
 * (buildStatusesFrom), and the token stream and arguments the loop of
 * withStatusFilter appends for that list, with `OR` placed by isNotLastIn.
 *
 * The switch's empty default branch cannot be reached from
 * buildStatusesFrom's output and has no counterpart.
 */
module StatusFilter {
  import opened Criteria
  import opened Downloads
  import opened Text
  import opened StatusFlags

  /** Strictly increasing in expansion order, hence also free of repeats. */
  ghost predicate InExpansionOrder(s: seq<Category>) {
    forall i, j :: 0 <= i < j < |s| ==> Rank(s[i]) < Rank(s[j])
  }

  /** A list in expansion order holds no category twice. */
  lemma OrderedDistinct(s: seq<Category>, i: nat, j: nat)
    requires InExpansionOrder(s) && i < |s| && j < |s|
    ensures i != j ==> s[i] != s[j]
  {
    if i < j {
      assert Rank(s[i]) < Rank(s[j]);
    } else if j < i {
      assert Rank(s[j]) < Rank(s[i]);
    }
  }

  /** The last entry of a list in expansion order does not occur before it. */
  lemma LastNotInPrefix(s: seq<Category>)
    requires InExpansionOrder(s) && s != []
    ensures s[|s| - 1] !in s[..|s| - 1]
  {
    var p := s[..|s| - 1];
    forall i | 0 <= i < |p| ensures p[i] != s[|s| - 1] {
      OrderedDistinct(s, i, |s| - 1);
    }
  }

  // ---------------------------------------------------------------------
  // buildStatusesFrom

  /** The entries of cs that belong to sel, in the order of cs. */
  function Present(sel: set<Category>, cs: seq<Category>): seq<Category> {
    if cs == [] then []
    else if cs[0] in sel then [cs[0]] + Present(sel, cs[1..])
    else Present(sel, cs[1..])
  }

  /** Filtering keeps exactly the selected members. */
  lemma {:induction false} PresentMembers(sel: set<Category>, cs: seq<Category>)
    ensures forall c :: c in Present(sel, cs) <==> c in cs && c in sel
  {
    if cs != [] {
      PresentMembers(sel, cs[1..]);
      assert cs == [cs[0]] + cs[1..];
    }
  }

  /** Filtering keeps the order of the list filtered. */
  lemma {:induction false} PresentOrdered(sel: set<Category>, cs: seq<Category>)
    requires InExpansionOrder(cs)
    ensures InExpansionOrder(Present(sel, cs))
  {
    if cs != [] {
      var rest := cs[1..];
      PresentOrdered(sel, rest);
      PresentMembers(sel, rest);
      if cs[0] in sel {
        var r := Present(sel, cs);
        forall i, j | 0 <= i < j < |r| ensures Rank(r[i]) < Rank(r[j]) {
          if i == 0 {
            assert r[j] in Present(sel, rest);
            var k :| 0 <= k < |rest| && rest[k] == r[j];
            assert Rank(cs[0]) < Rank(cs[k + 1]);
          } else {
            assert r[i] == Present(sel, rest)[i - 1];
          }
        }
      }
    }
  }

  /** Filtering a list extended by c: the filtered list, then c if it is selected. */
  lemma {:induction false} PresentSnoc(sel: set<Category>, cs: seq<Category>, c: Category)
    ensures Present(sel, cs + [c]) == Present(sel, cs) + (if c in sel then [c] else [])
  {
    if cs == [] {
      assert ([c] + [])[1..] == [];
      assert cs + [c] == [c];
    } else {
      assert (cs + [c])[1..] == cs[1..] + [c];
      PresentSnoc(sel, cs[1..], c);
    }
  }

  /** The category list of a flag mask: ExpansionOrder filtered by the mask. */
  function StatusesFrom(f: PublicFlags, mask: bv32): seq<Category> {
    Present(SelectedSet(f, mask), ExpansionOrder)
  }

  /**
   * The category list holds every category whose flag is set and no other,
   * each once, in the fixed order PENDING, RUNNING, PAUSED, SUCCESSFUL,
   * FAILED.
   */
  lemma StatusesFromSpec(f: PublicFlags, mask: bv32)
    ensures forall c :: c in StatusesFrom(f, mask) <==> Selected(f, mask, c)
    ensures InExpansionOrder(StatusesFrom(f, mask))
  {
    PresentOrdered(SelectedSet(f, mask), ExpansionOrder);
    PresentMembers(SelectedSet(f, mask), ExpansionOrder);
    SelectedSetMembers(f, mask);
  }

  /** What one test of buildStatusesFrom contributes: c if it is selected, else nothing. */
  function IfSelected(sel: set<Category>, c: Category): seq<Category> {
    if c in sel then [c] else []
  }

  /** One test of buildStatusesFrom: the k-th category is appended if it is selected. */
  lemma StatusesFromStep(sel: set<Category>, k: nat)
    requires k < |ExpansionOrder|
    ensures Present(sel, ExpansionOrder[..k + 1])
            == Present(sel, ExpansionOrder[..k]) + IfSelected(sel, ExpansionOrder[k])
  {
    assert ExpansionOrder[..k + 1] == ExpansionOrder[..k] + [ExpansionOrder[k]];
    PresentSnoc(sel, ExpansionOrder[..k], ExpansionOrder[k]);
  }

  /** The selected categories of a mask, listed by the five tests in sequence. */
  lemma StatusesFromUnfolded(sel: set<Category>)
    ensures Present(sel, ExpansionOrder)
            == IfSelected(sel, Pending) + IfSelected(sel, Running) + IfSelected(sel, Paused)
               + IfSelected(sel, Successful) + IfSelected(sel, Failed)
  {
    assert ExpansionOrder[..0] == [];
    StatusesFromStep(sel, 0);
    StatusesFromStep(sel, 1);
    StatusesFromStep(sel, 2);
    StatusesFromStep(sel, 3);
    StatusesFromStep(sel, 4);
    assert ExpansionOrder[..5] == ExpansionOrder;
  }

  /**
   * buildStatusesFrom: five tests, each appending its category to the list
   * when `(statusFlags & flag) != 0`.
   */
  method BuildStatusesFrom(f: PublicFlags, mask: bv32) returns (statuses: seq<Category>)
    ensures statuses == StatusesFrom(f, mask)
  {
    ghost var sel := SelectedSet(f, mask);
    SelectedSetTests(f, mask);
    statuses := [];
    if HasFlag(mask, f.pending) {
      statuses := statuses + [Pending];
    }
    ghost var upToPending := statuses;
    assert upToPending == IfSelected(sel, Pending);
    if HasFlag(mask, f.running) {
      statuses := statuses + [Running];
    }
    ghost var upToRunning := statuses;
    assert upToRunning == upToPending + IfSelected(sel, Running);
    if HasFlag(mask, f.paused) {
      statuses := statuses + [Paused];
    }
    ghost var upToPaused := statuses;
    assert upToPaused == upToRunning + IfSelected(sel, Paused);
    if HasFlag(mask, f.successful) {
      statuses := statuses + [Successful];
    }
    ghost var upToSuccessful := statuses;
    assert upToSuccessful == upToPaused + IfSelected(sel, Successful);
    if HasFlag(mask, f.failed) {
      statuses := statuses + [Failed];
    }
    assert statuses == upToSuccessful + IfSelected(sel, Failed);
    StatusesFromUnfolded(sel);
  }

  /** A mask holding only one public flag lists exactly its category. */
  lemma StatusesFromSingleFlag(f: PublicFlags, c: Category)
    requires DisjointFlags(f)
    ensures StatusesFrom(f, Bit(f, c)) == [c]
  {
    SingleFlagSelects(f, c);
    StatusesFromUnfolded({c});
  }

  /** An empty mask lists nothing. */
  lemma StatusesFromNoFlags(f: PublicFlags)
    ensures StatusesFrom(f, 0) == []
  {
    SelectedSetMembers(f, 0);
    assert SelectedSet(f, 0) == {};
    StatusesFromUnfolded({});
  }

  /** Bits outside the five public flags are ignored. */
  lemma StatusesFromIgnoresUnknownBits(f: PublicFlags, mask: bv32)
    ensures StatusesFrom(f, mask) == StatusesFrom(f, mask & KnownBits(f))
  {
    SelectedSetIgnoresUnknownBits(f, mask);
  }

  // ---------------------------------------------------------------------
  // isNotLastIn

  /** List.lastIndexOf: the last position holding x, or -1 when there is none. */
  function LastIndexOf(s: seq<Category>, x: Category): (k: int)
    ensures -1 <= k < |s|
    ensures k >= 0 ==> s[k] == x
    ensures forall j :: k < j < |s| ==> s[j] != x
  {
    if s == [] then -1
    else if s[|s| - 1] == x then |s| - 1
    else LastIndexOf(s[..|s| - 1], x)
  }

  /** isNotLastIn: the last occurrence of x is not the list's last entry. */
  predicate IsNotLastIn(s: seq<Category>, x: Category)
    ensures IsNotLastIn(s, x) <==> s != [] && s[|s| - 1] != x
  {
    LastIndexOf(s, x) != |s| - 1
  }

  /** On a list without repeats, isNotLastIn(s, s[i]) holds exactly when i is not the last index. */
  lemma IsNotLastInDistinct(s: seq<Category>, i: nat)
    requires forall a, b :: 0 <= a < b < |s| ==> s[a] != s[b]
    requires i < |s|
    ensures IsNotLastIn(s, s[i]) <==> i < |s| - 1
  {
  }

  /**
   * isNotLastIn depends on the list being free of repeats: every occurrence
   * of the list's last entry fails the test, so an earlier duplicate of the
   * last entry would get no `OR` after it.
   */
  lemma IsNotLastInRepeated(s: seq<Category>, i: nat)
    requires i < |s| && s[i] == s[|s| - 1]
    ensures !IsNotLastIn(s, s[i])
  {
  }

  /** With a repeat the test no longer marks the non-last positions: in [c, c] the first c fails it. */
  lemma IsNotLastInRepeatedPair(c: Category)
    ensures !IsNotLastIn([c, c], c)
  {
    IsNotLastInRepeated([c, c], 0);
  }

  // ---------------------------------------------------------------------
  // What each category appends

  /** The inner criteria of FAILED: the half-open range [400, 600). */
  const LowEndFailedStatusCode: int := 400
  const HighEndFailedStatusCode: int := 600

  function FailedRange(cols: Columns): Criteria {
    Criteria(
      [Atom(cols.status, MoreThanEqual), AndOp, Atom(cols.status, LessThan)],
      [ValueOf(LowEndFailedStatusCode), ValueOf(HighEndFailedStatusCode)],
      Wrappers.None)
  }

  /** The tokens the switch appends for one category. */
  function CategoryNodes(cols: Columns, c: Category): seq<Token> {
    match c
    case Pending => [Atom(cols.status, Equals)]
    case Running => [Atom(cols.status, Equals)]
    case Paused =>
      [Atom(cols.status, Equals), OrOp, Atom(cols.status, Equals), OrOp,
       Atom(cols.status, Equals), OrOp, Atom(cols.status, Equals)]
    case Successful => [Atom(cols.status, Equals)]
    case Failed => [Group(FailedRange(cols).nodes, FailedRange(cols).args)]
  }

  /** The arguments the switch appends for one category. */
  function CategoryArgs(codes: InternalCodes, c: Category): seq<string> {
    match c
    case Pending => [ValueOf(codes.pending)]
    case Running => [ValueOf(codes.running)]
    case Paused =>
      [ValueOf(codes.pausedByApp), ValueOf(codes.waitingToRetry),
       ValueOf(codes.waitingForNetwork), ValueOf(codes.queuedForWifi)]
    case Successful => [ValueOf(codes.success)]
    case Failed => [ValueOf(LowEndFailedStatusCode), ValueOf(HighEndFailedStatusCode)]
  }

  /** Every category's fragment is a non-empty well-formed stream. */
  lemma FragmentWellFormed(cols: Columns, c: Category)
    ensures CategoryNodes(cols, c) != []
    ensures WellFormed(CategoryNodes(cols, c))
  {
    if c == Failed {
      assert WellFormed(FailedRange(cols).nodes);
    }
  }

  lemma CombinatorsCons(t: Token, ts: seq<Token>)
    ensures Combinators([t] + ts) == (if IsCombinator(t) then 1 else 0) + Combinators(ts)
  {
    assert ([t] + ts)[1..] == ts;
  }

  /** PAUSED's fragment holds three `OR`s at its top level; every other fragment none. */
  lemma FragmentCombinators(cols: Columns, c: Category)
    ensures Combinators(CategoryNodes(cols, c)) == if c == Paused then 3 else 0
  {
    var a := Atom(cols.status, Equals);
    match c
    case Paused =>
      CombinatorsCons(a, []);
      CombinatorsCons(OrOp, [a]);
      CombinatorsCons(a, [OrOp, a]);
      CombinatorsCons(OrOp, [a, OrOp, a]);
      CombinatorsCons(a, [OrOp, a, OrOp, a]);
      CombinatorsCons(OrOp, [a, OrOp, a, OrOp, a]);
      CombinatorsCons(a, [OrOp, a, OrOp, a, OrOp, a]);
      assert [a] + [] == [a];
      assert [OrOp] + [a] == [OrOp, a];
      assert [a] + [OrOp, a] == [a, OrOp, a];
      assert [OrOp] + [a, OrOp, a] == [OrOp, a, OrOp, a];
      assert [a] + [OrOp, a, OrOp, a] == [a, OrOp, a, OrOp, a];
      assert [OrOp] + [a, OrOp, a, OrOp, a] == [OrOp, a, OrOp, a, OrOp, a];
      assert [a] + [OrOp, a, OrOp, a, OrOp, a] == CategoryNodes(cols, c);
    case Failed =>
      CombinatorsCons(CategoryNodes(cols, c)[0], []);
      assert [CategoryNodes(cols, c)[0]] + [] == CategoryNodes(cols, c);
    case _ =>
      CombinatorsCons(a, []);
      assert [a] + [] == [a];
  }

  /** Each category's arguments bind its fragment's placeholders. */
  lemma FragmentAligned(cols: Columns, codes: InternalCodes, c: Category)
    ensures Aligned(CategoryNodes(cols, c), CategoryArgs(codes, c))
  {
    var a := Atom(cols.status, Equals);
    match c
    case Paused =>
      var v := CategoryArgs(codes, c);
      assert Aligned([a], v[3..]);
      assert Aligned([OrOp, a], v[3..]) by { assert [OrOp, a][1..] == [a]; }
      assert Aligned([a, OrOp, a], v[2..]) by { assert [a, OrOp, a][1..] == [OrOp, a]; }
      assert Aligned([OrOp, a, OrOp, a], v[2..]) by { assert [OrOp, a, OrOp, a][1..] == [a, OrOp, a]; }
      assert Aligned([a, OrOp, a, OrOp, a], v[1..]) by {
        assert [a, OrOp, a, OrOp, a][1..] == [OrOp, a, OrOp, a];
      }
      assert Aligned([OrOp, a, OrOp, a, OrOp, a], v[1..]) by {
        assert [OrOp, a, OrOp, a, OrOp, a][1..] == [a, OrOp, a, OrOp, a];
      }
      assert [a, OrOp, a, OrOp, a, OrOp, a][1..] == [OrOp, a, OrOp, a, OrOp, a];
    case Failed =>
      var inner := FailedRange(cols);
      assert Aligned(inner.nodes[2..], inner.args[1..]) by {
        assert inner.nodes[2..][1..] == [];
      }
      assert Aligned(inner.nodes, inner.args) by {
        assert inner.nodes[1..][1..] == inner.nodes[2..];
      }
      assert CategoryArgs(codes, c)[|inner.args|..] == [];
    case _ =>
  }

  // ---------------------------------------------------------------------
  // The loop of withStatusFilter

  /**
   * The tokens after the first n iterations of the loop, as written: each
   * iteration appends its category's fragment, then `OR` when isNotLastIn
   * says the category is not the list's last.
   */
  function LoopNodes(cols: Columns, s: seq<Category>, n: nat): seq<Token>
    requires n <= |s|
  {
    if n == 0 then []
    else LoopNodes(cols, s, n - 1) + CategoryNodes(cols, s[n - 1])
         + (if IsNotLastIn(s, s[n - 1]) then [OrOp] else [])
  }

  /** The arguments the loop appends: each category's arguments, in list order. */
  function LoopArgs(codes: InternalCodes, s: seq<Category>): seq<string> {
    if s == [] then [] else LoopArgs(codes, s[..|s| - 1]) + CategoryArgs(codes, s[|s| - 1])
  }

  /** One iteration of the loop: the i-th category's fragment, `OR` if isNotLastIn, and its arguments. */
  lemma LoopStep(cols: Columns, codes: InternalCodes, s: seq<Category>, i: nat)
    requires i < |s|
    ensures LoopNodes(cols, s, i + 1)
            == LoopNodes(cols, s, i) + CategoryNodes(cols, s[i]) + (if IsNotLastIn(s, s[i]) then [OrOp] else [])
    ensures LoopArgs(codes, s[..i + 1]) == LoopArgs(codes, s[..i]) + CategoryArgs(codes, s[i])
  {
    assert s[..i + 1][..i] == s[..i];
  }

  /** The reference stream: the categories' fragments with `OR` only between them. */
  function OrJoined(cols: Columns, s: seq<Category>): seq<Token> {
    if |s| == 0 then []
    else if |s| == 1 then CategoryNodes(cols, s[0])
    else OrJoined(cols, s[..|s| - 1]) + [OrOp] + CategoryNodes(cols, s[|s| - 1])
  }

  /** On a list in expansion order the loop puts `OR` between categories and nowhere else. */
  lemma {:induction false} LoopNodesJoin(cols: Columns, s: seq<Category>, n: nat)
    requires InExpansionOrder(s) && 0 < n <= |s|
    ensures LoopNodes(cols, s, n) == OrJoined(cols, s[..n]) + (if n < |s| then [OrOp] else [])
  {
    IsNotLastInDistinct(s, n - 1);
    assert s[..n][..n - 1] == s[..n - 1];
    if n > 1 {
      LoopNodesJoin(cols, s, n - 1);
    }
  }

  lemma {:induction false} OrJoinedShape(cols: Columns, s: seq<Category>)
    requires s != []
    ensures OrJoined(cols, s) != []
    ensures WellFormed(OrJoined(cols, s))
  {
    FragmentWellFormed(cols, s[|s| - 1]);
    if |s| > 1 {
      OrJoinedShape(cols, s[..|s| - 1]);
      WellFormedJoin(OrJoined(cols, s[..|s| - 1]), OrOp, CategoryNodes(cols, s[|s| - 1]));
    }
  }

  lemma {:induction false} OrJoinedAligned(cols: Columns, codes: InternalCodes, s: seq<Category>)
    ensures Aligned(OrJoined(cols, s), LoopArgs(codes, s))
  {
    if |s| == 1 {
      FragmentAligned(cols, codes, s[0]);
      assert s[..0] == [];
      assert LoopArgs(codes, s) == CategoryArgs(codes, s[0]);
    } else if |s| > 1 {
      var p := s[..|s| - 1];
      var last := CategoryNodes(cols, s[|s| - 1]);
      var lastArgs := CategoryArgs(codes, s[|s| - 1]);
      OrJoinedAligned(cols, codes, p);
      FragmentAligned(cols, codes, s[|s| - 1]);
      assert Aligned([OrOp] + last, lastArgs) by {
        assert ([OrOp] + last)[1..] == last;
      }
      AlignedAppend(OrJoined(cols, p), LoopArgs(codes, p), [OrOp] + last, lastArgs);
      assert OrJoined(cols, p) + ([OrOp] + last) == OrJoined(cols, s);
    }
  }

  /**
   * With k >= 1 categories the joined stream holds k - 1 category-level
   * `OR`s, plus the three inside PAUSED's flat fragment when PAUSED is
   * present.
   */
  lemma {:induction false} OrJoinedCombinators(cols: Columns, s: seq<Category>)
    requires InExpansionOrder(s) && s != []
    ensures Combinators(OrJoined(cols, s)) == |s| - 1 + (if Paused in s then 3 else 0)
  {
    var c := s[|s| - 1];
    FragmentCombinators(cols, c);
    if |s| > 1 {
      var p := s[..|s| - 1];
      OrJoinedCombinators(cols, p);
      CombinatorsAppend(OrJoined(cols, p) + [OrOp], CategoryNodes(cols, c));
      CombinatorsAppend(OrJoined(cols, p), [OrOp]);
      assert s == p + [c];
      LastNotInPrefix(s);
    }
  }

  // ---------------------------------------------------------------------
  // withStatusFilter(mask) as a whole

  /** The tokens withStatusFilter leaves in its fresh builder for a mask. */
  function StatusNodes(cols: Columns, f: PublicFlags, mask: bv32): seq<Token> {
    var s := StatusesFrom(f, mask);
    LoopNodes(cols, s, |s|)
  }

  /** The arguments withStatusFilter leaves in its fresh builder for a mask. */
  function StatusArgs(codes: InternalCodes, f: PublicFlags, mask: bv32): seq<string> {
    LoopArgs(codes, StatusesFrom(f, mask))
  }

  /** The loop's stream for a list in expansion order is the categories' fragments joined by `OR`. */
  lemma LoopNodesIsOrJoined(cols: Columns, s: seq<Category>)
    requires InExpansionOrder(s)
    ensures LoopNodes(cols, s, |s|) == OrJoined(cols, s)
  {
    if s != [] {
      LoopNodesJoin(cols, s, |s|);
      assert s[..|s|] == s;
    }
  }

  /**
   * The status group for any mask: `OR` only between the selected
   * categories; well formed at every level (so no leading, trailing or
   * doubled combinator); one argument per placeholder, each category's
   * arguments at its own position, in category order; k - 1 category-level
   * `OR`s for k selected categories.
   */
  lemma StatusFilterShape(cols: Columns, codes: InternalCodes, f: PublicFlags, mask: bv32)
    ensures StatusNodes(cols, f, mask) == OrJoined(cols, StatusesFrom(f, mask))
    ensures WellFormed(StatusNodes(cols, f, mask))
    ensures NoStrayCombinator(StatusNodes(cols, f, mask))
    ensures Aligned(StatusNodes(cols, f, mask), StatusArgs(codes, f, mask))
    ensures |StatusArgs(codes, f, mask)| == Placeholders(StatusNodes(cols, f, mask))
    ensures StatusesFrom(f, mask) != [] ==>
      Combinators(StatusNodes(cols, f, mask))
      == |StatusesFrom(f, mask)| - 1 + (if Selected(f, mask, Paused) then 3 else 0)
  {
    var s := StatusesFrom(f, mask);
    var ns := StatusNodes(cols, f, mask);
    StatusesFromSpec(f, mask);
    LoopNodesIsOrJoined(cols, s);
    if s != [] {
      OrJoinedShape(cols, s);
      OrJoinedCombinators(cols, s);
    }
    OrJoinedAligned(cols, codes, s);
    AlternatesHasNoStrayCombinator(ns);
    AlignedCount(ns, StatusArgs(codes, f, mask));
  }

  /** The loop over a one-category list appends that category's fragment and arguments. */
  lemma SingleCategoryLoop(cols: Columns, codes: InternalCodes, c: Category)
    ensures LoopNodes(cols, [c], 1) == CategoryNodes(cols, c)
    ensures LoopArgs(codes, [c]) == CategoryArgs(codes, c)
  {
    assert [c][..0] == [];
    LoopNodesIsOrJoined(cols, [c]);
  }

  /**
   * PAUSED alone: four flat EQUALS atoms on the status column joined by
   * three `OR`s, with the four paused codes as arguments in order.
   */
  lemma PausedOnly(cols: Columns, codes: InternalCodes, f: PublicFlags)
    requires DisjointFlags(f)
    ensures StatusNodes(cols, f, f.paused)
            == [Atom(cols.status, Equals), OrOp, Atom(cols.status, Equals), OrOp,
                Atom(cols.status, Equals), OrOp, Atom(cols.status, Equals)]
    ensures StatusArgs(codes, f, f.paused)
            == [ValueOf(codes.pausedByApp), ValueOf(codes.waitingToRetry),
                ValueOf(codes.waitingForNetwork), ValueOf(codes.queuedForWifi)]
  {
    StatusesFromSingleFlag(f, Paused);
    SingleCategoryLoop(cols, codes, Paused);
  }

  /** FAILED alone: one group `status >= ? AND status < ?` bound to "400" and "600". */
  lemma FailedOnly(cols: Columns, codes: InternalCodes, f: PublicFlags)
    requires DisjointFlags(f)
    ensures StatusNodes(cols, f, f.failed)
            == [Group([Atom(cols.status, MoreThanEqual), AndOp, Atom(cols.status, LessThan)], ["400", "600"])]
    ensures StatusArgs(codes, f, f.failed) == ["400", "600"]
  {
    StatusesFromSingleFlag(f, Failed);
    SingleCategoryLoop(cols, codes, Failed);
    FailedBoundsText();
  }

  /** The loop over two categories in expansion order joins their fragments with one `OR`. */
  lemma TwoCategoryLoop(cols: Columns, codes: InternalCodes, c: Category, d: Category)
    requires Rank(c) < Rank(d)
    ensures LoopNodes(cols, [c, d], 2) == CategoryNodes(cols, c) + [OrOp] + CategoryNodes(cols, d)
    ensures LoopArgs(codes, [c, d]) == CategoryArgs(codes, c) + CategoryArgs(codes, d)
  {
    var s := [c, d];
    assert s[..1] == [c];
    LoopNodesIsOrJoined(cols, s);
    SingleCategoryLoop(cols, codes, c);
  }

  /** A mask selecting PENDING and SUCCESSFUL lists exactly those two, in that order. */
  lemma StatusesFromPair(f: PublicFlags, mask: bv32)
    requires SelectedSet(f, mask) == {Pending, Successful}
    ensures StatusesFrom(f, mask) == [Pending, Successful]
  {
    StatusesFromUnfolded({Pending, Successful});
  }

  /**
   * A mask selecting PENDING and SUCCESSFUL (with disjoint flags,
   * `pending | successful`, by TwoFlagsSelect): two EQUALS atoms joined by
   * one `OR`, pending's code first.
   */
  lemma PendingOrSuccessful(cols: Columns, codes: InternalCodes, f: PublicFlags, mask: bv32)
    requires SelectedSet(f, mask) == {Pending, Successful}
    ensures StatusNodes(cols, f, mask) == [Atom(cols.status, Equals), OrOp, Atom(cols.status, Equals)]
    ensures StatusArgs(codes, f, mask) == [ValueOf(codes.pending), ValueOf(codes.success)]
  {
    StatusesFromPair(f, mask);
    TwoCategoryLoop(cols, codes, Pending, Successful);
  }

  /** An empty mask appends nothing. */
  lemma NoFlags(cols: Columns, codes: InternalCodes, f: PublicFlags)
    ensures StatusNodes(cols, f, 0) == [] && StatusArgs(codes, f, 0) == []
  {
    StatusesFromNoFlags(f);
  }
}
