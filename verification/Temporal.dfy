/** The bitemporal vocabulary (kernel/temporal). */
module Temporal {
  import opened Results

  /** Nanoseconds since the Unix epoch. */
  type Instant = int

  /** Go's zero time.Time, 1 January of year 1: "unset". */
  const UNSET: Instant := -62_135_596_800_000_000_000

  /** Half-open [from, to); `to == UNSET` means the interval has not ended. */
  datatype Interval = Interval(from: Instant, to: Instant) {
    predicate IsOpen() {
      to == UNSET
    }

    /** What NewInterval accepts. */
    predicate Valid() {
      from != UNSET && (IsOpen() || from <= to)
    }

    /** An interval that ends where it starts holds that one instant. */
    predicate Contains(i: Instant) {
      if i < from then false
      else if IsOpen() then true
      else if to == from then i == from
      else i < to
    }
  }

  function NewInterval(from: Instant, to: Instant): (r: Result<Interval>)
    ensures r.Ok? <==> from != UNSET && (to == UNSET || from <= to)
    ensures r.Ok? ==> r.value.from == from && r.value.to == to
    ensures r.Ok? <==> Interval(from, to).Valid()
  {
    if from == UNSET then Err(ErrZeroInstant)
    else if to != UNSET && to < from then Err(ErrInvalidInterval)
    else Ok(Interval(from, to))
  }

  datatype Coordinates = Coordinates(effective: Interval, knowledge: Instant) {
    predicate Visible(a: AsOf) {
      knowledge <= a.knowledge && effective.Contains(a.effective)
    }
  }

  function Assign(effective: Interval, knowledge: Instant): (r: Result<Coordinates>) {
    if effective.from == UNSET || knowledge == UNSET then Err(ErrZeroInstant)
    else Ok(Coordinates(effective, knowledge))
  }

  datatype AsOf = AsOf(effective: Instant, knowledge: Instant)

  function NewAsOf(effective: Instant, knowledge: Instant): (r: Result<AsOf>) {
    if effective == UNSET || knowledge == UNSET then Err(ErrZeroInstant)
    else Ok(AsOf(effective, knowledge))
  }

  /** Adjacent intervals [a, b) and [b, c), the second possibly open, cover
      [a, c) once each exactly when neither is degenerate: [a, a] holds its own
      end, and [b, b] holds an instant that [a, b) leaves out. */
  lemma AdjacentIntervalsCompose(a: Instant, b: Instant, c: Instant)
    requires Interval(a, b).Valid() && b != UNSET && Interval(b, c).Valid()
    ensures (forall i :: Interval(a, c).Contains(i) <==>
                         Interval(a, b).Contains(i) != Interval(b, c).Contains(i))
            <==> a < b && b != c
  {
    if a == b || b == c {
      assert Interval(b, c).Contains(b) && Interval(a, c).Contains(b) == (a == b || b != c);
      assert Interval(a, b).Contains(b) == (a == b);
    }
  }
}
