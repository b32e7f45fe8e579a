/**
 * DatabaseHelper.projectionFrom: the column list of a view's SELECT, written
 * as the array's entries separated by ", ", with the sentinels "null" for a
 * null array and "[]" for an empty one.  An entry is a Java String that may
 * itself be null; StringBuilder.append writes a null entry as "null".
 *
 * The buffer is created with the capacity hint `array.length * 7`, a 32-bit
 * Java int product.  When it wraps to a negative value the StringBuilder
 * constructor throws NegativeArraySizeException; the result None stands for
 * that exception.
 */
module DatabaseHelper {
  import opened Wrappers

  /** What StringBuilder.append writes for one entry. */
  function Shown(e: Option<string>): string {
    match e
    case None => "null"
    case Some(v) => v
  }

  /** The entries of a non-empty list, in order, separated by ", " (built from the left, as the loop does). */
  function Join(xs: seq<Option<string>>): string
    requires |xs| >= 1
  {
    if |xs| == 1 then Shown(xs[0])
    else Join(xs[..|xs| - 1]) + ", " + Shown(xs[|xs| - 1])
  }

  /** The same join built from the right: the first entry, then ", " before each further one. */
  function Separated(xs: seq<Option<string>>): string {
    if xs == [] then "" else ", " + Shown(xs[0]) + Separated(xs[1..])
  }

  /** The text projectionFrom returns for a possibly null array with the given contents. */
  function Projection(a: Option<seq<Option<string>>>): string {
    match a
    case None => "null"
    case Some(xs) => if xs == [] then "[]" else Join(xs)
  }

  /** The sum of the entries' shown lengths. */
  function TotalLength(xs: seq<Option<string>>): nat {
    if xs == [] then 0 else TotalLength(xs[..|xs| - 1]) + |Shown(xs[|xs| - 1])|
  }

  /** Java's `int` multiplication: the product wrapped to 32-bit two's complement. */
  function IntMul(x: int, y: int): (p: int)
    ensures -0x8000_0000 <= p < 0x8000_0000
    ensures (p - x * y) % 0x1_0000_0000 == 0
  {
    var r := (x * y) % 0x1_0000_0000;
    if r < 0x8000_0000 then r else r - 0x1_0000_0000
  }

  /** `new StringBuilder(length * 7)` throws: the capacity hint wrapped negative. */
  predicate CapacityOverflows(length: nat) {
    IntMul(length, 7) < 0
  }

  /**
   * projectionFrom: "null" for a null array, "[]" for an empty one, no result
   * when the capacity hint overflows, and otherwise the loop's join; after
   * step i the buffer holds the join of the first i entries.
   */
  method ProjectionFrom(a: array?<Option<string>>) returns (r: Option<string>)
    ensures r.None? <==> a != null && a.Length > 0 && CapacityOverflows(a.Length)
    ensures r.Some? ==> r.value == Projection(if a == null then None else Some(a[..]))
  {
    if a == null {
      return Some("null");
    }
    if a.Length == 0 {
      return Some("[]");
    }
    if CapacityOverflows(a.Length) {
      return None;
    }
    var s := Shown(a[0]);
    for i := 1 to a.Length
      invariant s == Join(a[..i])
    {
      assert a[..i + 1][..i] == a[..i];
      s := s + ", ";
      s := s + Shown(a[i]);
    }
    assert a[..a.Length] == a[..];
    r := Some(s);
  }

  /** Arrays shorter than 306,783,379 entries never overflow the capacity hint. */
  lemma ShortArraysFit(length: nat)
    requires length < 306_783_379
    ensures !CapacityOverflows(length)
  {
  }

  /** The first length whose hint wraps negative, and the last of that first run. */
  lemma OverflowBoundaries()
    ensures !CapacityOverflows(306_783_378) && CapacityOverflows(306_783_379)
    ensures CapacityOverflows(613_566_756) && !CapacityOverflows(613_566_757)
  {
  }

  /** A one-entry array yields that entry unchanged. */
  lemma SingleEntry(e: Option<string>)
    ensures Projection(Some([e])) == Shown(e)
  {
  }

  /** Appending an entry appends ", " and that entry. */
  lemma JoinSnoc(xs: seq<Option<string>>, e: Option<string>)
    requires |xs| >= 1
    ensures Join(xs + [e]) == Join(xs) + ", " + Shown(e)
  {
    assert (xs + [e])[..|xs|] == xs;
  }

  lemma SeparatedSnoc(xs: seq<Option<string>>, e: Option<string>)
    ensures Separated(xs + [e]) == Separated(xs) + ", " + Shown(e)
  {
    if xs == [] {
      assert [e][1..] == [];
    } else {
      assert (xs + [e])[1..] == xs[1..] + [e];
      SeparatedSnoc(xs[1..], e);
    }
  }

  /**
   * The left-to-right join is the first entry followed by ", " and each
   * further entry, in array order.
   */
  lemma {:induction false} JoinIsSeparated(xs: seq<Option<string>>)
    requires |xs| >= 1
    ensures Join(xs) == Shown(xs[0]) + Separated(xs[1..])
  {
    if |xs| > 1 {
      var init := xs[..|xs| - 1];
      JoinIsSeparated(init);
      assert init[1..] + [xs[|xs| - 1]] == xs[1..];
      SeparatedSnoc(init[1..], xs[|xs| - 1]);
    }
  }

  /** n entries get n - 1 separators: the length is the entries' lengths plus 2(n - 1). */
  lemma {:induction false} JoinLength(xs: seq<Option<string>>)
    requires |xs| >= 1
    ensures |Join(xs)| == TotalLength(xs) + 2 * (|xs| - 1)
  {
    if |xs| == 1 {
      assert xs[..0] == [];
    } else {
      JoinLength(xs[..|xs| - 1]);
    }
  }

  /** The sentinels collide with data: a null array and an array holding one null entry both give "null". */
  lemma NullSentinelCollides()
    ensures Projection(None) == Projection(Some([None]))
  {
  }

  /** An empty array and an array holding the single entry "[]" both give "[]". */
  lemma EmptySentinelCollides()
    ensures Projection(Some([])) == Projection(Some([Some("[]")]))
  {
  }
}
