/**
 * The public status flags and the five categories they select.  The Java
 * code keeps a category as its flag value and dispatches on it with a
 * switch; the case labels are distinct compile-time constants, so here each
 * one is a Category.
 */
module StatusFlags {
  import opened Downloads

  datatype Category = Pending | Running | Paused | Successful | Failed

  /** The fixed order in which buildStatusesFrom tests the flags. */
  const ExpansionOrder: seq<Category> := [Pending, Running, Paused, Successful, Failed]

  /** The position of a category in ExpansionOrder. */
  function Rank(c: Category): (r: nat)
    ensures r < |ExpansionOrder| && ExpansionOrder[r] == c
  {
    match c
    case Pending => 0
    case Running => 1
    case Paused => 2
    case Successful => 3
    case Failed => 4
  }

  /** The public flag of a category. */
  function Bit(f: PublicFlags, c: Category): bv32 {
    match c
    case Pending => f.pending
    case Running => f.running
    case Paused => f.paused
    case Successful => f.successful
    case Failed => f.failed
  }

  /** The union of the five public flags. */
  function KnownBits(f: PublicFlags): bv32 {
    f.pending | f.running | f.paused | f.successful | f.failed
  }

  /** Every set bit of a is set in k. */
  predicate Within(a: bv32, k: bv32) {
    a & k == a
  }

  /** Two words share no set bit. */
  predicate NoCommonBit(x: bv32, y: bv32) {
    x & y == 0
  }

  /** The flags are non-zero and pairwise disjoint, as @IntDef(flag = true) intends. */
  ghost predicate DisjointFlags(f: PublicFlags) {
    forall c: Category, d: Category :: Bit(f, c) != 0 && (c != d ==> NoCommonBit(Bit(f, c), Bit(f, d)))
  }

  /** `(statusFlags & flag) != 0`: the mask shares a set bit with the flag. */
  predicate HasFlag(mask: bv32, flag: bv32) {
    mask & flag != 0
  }

  /** The flag of category c is set in mask. */
  predicate Selected(f: PublicFlags, mask: bv32, c: Category) {
    HasFlag(mask, Bit(f, c))
  }

  /** The categories whose flag is set in mask. */
  function SelectedSet(f: PublicFlags, mask: bv32): set<Category> {
    set c | c in ExpansionOrder && Selected(f, mask, c)
  }

  lemma SelectedSetMembers(f: PublicFlags, mask: bv32)
    ensures forall c :: c in SelectedSet(f, mask) <==> Selected(f, mask, c)
  {
    forall c ensures c in ExpansionOrder {
      assert ExpansionOrder[Rank(c)] == c;
    }
  }

  /** The five tests of buildStatusesFrom, one per category, decide the selection. */
  lemma SelectedSetTests(f: PublicFlags, mask: bv32)
    ensures Pending in SelectedSet(f, mask) <==> HasFlag(mask, f.pending)
    ensures Running in SelectedSet(f, mask) <==> HasFlag(mask, f.running)
    ensures Paused in SelectedSet(f, mask) <==> HasFlag(mask, f.paused)
    ensures Successful in SelectedSet(f, mask) <==> HasFlag(mask, f.successful)
    ensures Failed in SelectedSet(f, mask) <==> HasFlag(mask, f.failed)
  {
    SelectedSetMembers(f, mask);
  }

  // Bit-level facts, each about plain 32-bit words.

  lemma SelfTest(x: bv32)
    requires x != 0
    ensures HasFlag(x, x)
  {
  }

  lemma DisjointTest(x: bv32, y: bv32)
    requires NoCommonBit(x, y)
    ensures !HasFlag(x, y)
  {
  }

  lemma UnionTest(a: bv32, b: bv32, c: bv32)
    ensures HasFlag(a | b, c) <==> HasFlag(a, c) || HasFlag(b, c)
  {
    assert (a | b) & c == (a & c) | (b & c);
  }

  lemma SubmaskTest(m: bv32, a: bv32, k: bv32)
    requires Within(a, k)
    ensures HasFlag(m, a) <==> HasFlag(m & k, a)
  {
    assert (m & k) & a == m & a;
  }

  lemma PendingWithinKnownBits(f: PublicFlags)
    ensures Within(f.pending, KnownBits(f))
  {
  }

  lemma RunningWithinKnownBits(f: PublicFlags)
    ensures Within(f.running, KnownBits(f))
  {
  }

  lemma PausedWithinKnownBits(f: PublicFlags)
    ensures Within(f.paused, KnownBits(f))
  {
  }

  lemma SuccessfulWithinKnownBits(f: PublicFlags)
    ensures Within(f.successful, KnownBits(f))
  {
  }

  lemma FailedWithinKnownBits(f: PublicFlags)
    ensures Within(f.failed, KnownBits(f))
  {
  }

  /** Every public flag lies within KnownBits. */
  lemma WithinKnownBits(f: PublicFlags, c: Category)
    ensures Within(Bit(f, c), KnownBits(f))
  {
    match c
    case Pending => PendingWithinKnownBits(f);
    case Running => RunningWithinKnownBits(f);
    case Paused => PausedWithinKnownBits(f);
    case Successful => SuccessfulWithinKnownBits(f);
    case Failed => FailedWithinKnownBits(f);
  }

  /** Clearing the bits outside the five public flags does not change any category's test. */
  lemma SelectedIgnoresUnknownBits(f: PublicFlags, mask: bv32, c: Category)
    ensures Selected(f, mask, c) <==> Selected(f, mask & KnownBits(f), c)
  {
    WithinKnownBits(f, c);
    SubmaskTest(mask, Bit(f, c), KnownBits(f));
  }

  /** Bits outside the five public flags select nothing. */
  lemma SelectedSetIgnoresUnknownBits(f: PublicFlags, mask: bv32)
    ensures SelectedSet(f, mask) == SelectedSet(f, mask & KnownBits(f))
  {
    SelectedSetMembers(f, mask);
    SelectedSetMembers(f, mask & KnownBits(f));
    forall c ensures c in SelectedSet(f, mask) <==> c in SelectedSet(f, mask & KnownBits(f)) {
      SelectedIgnoresUnknownBits(f, mask, c);
    }
  }

  /** With disjoint flags, a mask holding one flag tests positive for its category alone. */
  lemma SingleFlag(f: PublicFlags, c: Category, d: Category)
    requires DisjointFlags(f)
    ensures Selected(f, Bit(f, c), d) <==> d == c
  {
    if c == d {
      SelfTest(Bit(f, c));
    } else {
      DisjointTest(Bit(f, c), Bit(f, d));
    }
  }

  /** With disjoint flags, a mask holding two flags selects their categories alone. */
  lemma TwoFlags(f: PublicFlags, c: Category, d: Category, e: Category)
    requires DisjointFlags(f)
    ensures e in SelectedSet(f, Bit(f, c) | Bit(f, d)) <==> e == c || e == d
  {
    SelectedSetMembers(f, Bit(f, c) | Bit(f, d));
    UnionTest(Bit(f, c), Bit(f, d), Bit(f, e));
    SingleFlag(f, c, e);
    SingleFlag(f, d, e);
  }

  /** With disjoint flags, a mask holding one flag selects its category alone. */
  lemma SingleFlagSelects(f: PublicFlags, c: Category)
    requires DisjointFlags(f)
    ensures SelectedSet(f, Bit(f, c)) == {c}
  {
    SelectedSetMembers(f, Bit(f, c));
    forall d ensures d in SelectedSet(f, Bit(f, c)) <==> d == c {
      SingleFlag(f, c, d);
    }
  }

  /** A set of categories is determined by its members. */
  lemma PairByMembers(s: set<Category>, c: Category, d: Category)
    requires forall e :: e in s <==> e == c || e == d
    ensures s == {c, d}
  {
  }

  /** With disjoint flags, a mask holding two flags selects their two categories. */
  lemma TwoFlagsSelect(f: PublicFlags, c: Category, d: Category)
    requires DisjointFlags(f)
    ensures SelectedSet(f, Bit(f, c) | Bit(f, d)) == {c, d}
  {
    var sel := SelectedSet(f, Bit(f, c) | Bit(f, d));
    forall e ensures e in sel <==> e == c || e == d {
      TwoFlags(f, c, d, e);
    }
    PairByMembers(sel, c, d);
  }
}
