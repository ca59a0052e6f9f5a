/** The round robin that decides which vendor and which of the two periods a tick recomputes. */
module TickScheduler {
  import opened Options

  const PERIODS := 2

  datatype Turn = Turn(vendorIdx: nat, periodIdx: nat)

  /** The state after a call with n vendors, which moves on before the calculation is even tried. */
  function Advance(t: Turn, n: nat): Turn
    requires n >= 1
  {
    var v := (t.vendorIdx + 1) % (n * PERIODS);
    Turn(v, if v % n == 0 then (t.periodIdx + 1) % PERIODS else t.periodIdx)
  }

  function AfterCalls(t: Turn, n: nat, j: nat): Turn
    requires n >= 1
  {
    if j == 0 then t else Advance(AfterCalls(t, n, j - 1), n)
  }

  /** The vendor and the period (0 current, 1 last month) that a call in state t chooses. */
  function Choice(t: Turn, n: nat): (nat, nat)
    requires n >= 1
  {
    (t.vendorIdx % n, t.periodIdx % PERIODS)
  }

  class TickState {
    var vendorIdx: nat
    var periodIdx: nat

    constructor ()
      ensures Now() == Turn(0, 0)
    {
      vendorIdx, periodIdx := 0, 0;
    }

    function Now(): Turn
      reads this
    {
      Turn(vendorIdx, periodIdx)
    }

    /** pickNextTick: an empty vendor list is an error and leaves the state alone. */
    method PickNext(vendors: seq<string>) returns (choice: Option<(string, nat)>)
      modifies this
      ensures vendors == [] ==> choice == None && Now() == old(Now())
      ensures vendors != [] ==>
                && Now() == Advance(old(Now()), |vendors|)
                && var c := Choice(old(Now()), |vendors|);
                   choice == Some((vendors[c.0], c.1))
    {
      if |vendors| == 0 {
        return None;
      }
      var period := periodIdx % PERIODS;
      var vendor := vendors[vendorIdx % |vendors|];
      vendorIdx := (vendorIdx + 1) % (|vendors| * PERIODS);
      if vendorIdx % |vendors| == 0 {
        periodIdx := (periodIdx + 1) % PERIODS;
      }
      choice := Some((vendor, period));
    }
  }

  // ----- arithmetic of one lap -----

  lemma Scale(x: int, y: int, n: nat)
    requires x <= y
    ensures x * n <= y * n
  {
  }

  lemma Laps(q: int, s: int, n: nat)
    ensures q * (n * PERIODS) + s * n == (q * PERIODS + s) * n
  {
  }

  lemma DivMod(c: nat, q: nat, r: nat, n: nat)
    requires n >= 1 && r < n && c == q * n + r
    ensures c / n == q && c % n == r
  {
    var d := c / n - q;
    assert c == (c / n) * n + c % n;
    assert d * n == r - c % n;
    if d >= 1 {
      Scale(1, d, n);
    } else if d <= -1 {
      Scale(d, -1, n);
    }
  }

  lemma Successor(c: nat, n: nat)
    requires n >= 1
    ensures (c + 1) % n == if c % n == n - 1 then 0 else c % n + 1
    ensures (c + 1) / n == if c % n == n - 1 then c / n + 1 else c / n
  {
    var q, r := c / n, c % n;
    assert c == q * n + r;
    if r == n - 1 {
      assert c + 1 == (q + 1) * n + 0;
      DivMod(c + 1, q + 1, 0, n);
    } else {
      DivMod(c + 1, q, r + 1, n);
    }
  }

  lemma Parts(v: nat, d: nat)
    requires d >= 1
    ensures v == v / d * d + v % d && 0 <= v / d && 0 <= v % d < d
  {
  }

  lemma Regrouped(v: nat, n: nat, q: nat, s: nat, r: nat)
    requires n >= 1 && r < n && v == q * (n * PERIODS) + (s * n + r)
    ensures v % n == r
  {
    Laps(q, s, n);
    DivMod(v, q * PERIODS + s, r, n);
  }

  lemma ModOfLap(v: nat, n: nat, lap: nat)
    requires n >= 1 && lap == n * PERIODS
    ensures (v % lap) % n == v % n
  {
    Parts(v, lap);
    Parts(v % lap, n);
    Regrouped(v, n, v / lap, v % lap / n, v % lap % n);
  }

  /** Reducing modulo 2n first does not change the residue modulo n. */
  lemma ModOfMod(v: nat, n: nat)
    requires n >= 1
    ensures (v % (n * PERIODS)) % n == v % n
  {
    ModOfLap(v, n, n * PERIODS);
  }

  lemma Follows(v: nat, c: nat, n: nat)
    requires n >= 1 && v % n == c % n
    ensures ((v + 1) % (n * PERIODS)) % n == (c + 1) % n
  {
    ModOfMod(v + 1, n);
    Successor(v, n);
    Successor(c, n);
  }

  // ----- the property -----

  lemma NextChoice(t: Turn, n: nat, c: nat, p: nat)
    requires n >= 1 && Choice(t, n) == (c % n, (p + c / n) % PERIODS)
    ensures Choice(Advance(t, n), n) == ((c + 1) % n, (p + (c + 1) / n) % PERIODS)
  {
    Follows(t.vendorIdx, c, n);
    Successor(c, n);
  }

  /** From any state, the j-th next call takes vendor a + j, and the period flips whenever the vendors wrap. */
  lemma {:induction false} CallChooses(t: Turn, n: nat, j: nat)
    requires n >= 1
    ensures Choice(AfterCalls(t, n, j), n) == ((t.vendorIdx % n + j) % n, (t.periodIdx + (t.vendorIdx % n + j) / n) % PERIODS)
  {
    var a := t.vendorIdx % n;
    if j == 0 {
      DivMod(a, 0, a, n);
    } else {
      CallChooses(t, n, j - 1);
      NextChoice(AfterCalls(t, n, j - 1), n, a + j - 1, t.periodIdx);
    }
  }

  /** The call, counted from now, that serves vendor v and period q. */
  function ServedBy(t: Turn, n: nat, v: nat, q: nat): int
    requires n >= 1
  {
    var a := t.vendorIdx % n;
    var first := if v >= a then v else v + n;
    if (t.periodIdx + first / n) % PERIODS == q then first - a else first + n - a
  }

  lemma FirstVisit(a: nat, v: nat, n: nat)
    requires a < n && v < n
    ensures var first := if v >= a then v else v + n;
            && first % n == v && (first + n) % n == v && (first + n) / n == first / n + 1
  {
    DivMod(v, 0, v, n);
    DivMod(v + n, 1, v, n);
    assert v + n + n == 2 * n + v;
    DivMod(v + n + n, 2, v, n);
  }

  lemma Visit(t: Turn, n: nat, c: nat)
    requires n >= 1 && t.vendorIdx % n <= c
    ensures Choice(AfterCalls(t, n, c - t.vendorIdx % n), n) == (c % n, (t.periodIdx + c / n) % PERIODS)
  {
    CallChooses(t, n, c - t.vendorIdx % n);
  }

  lemma OtherPeriod(x: nat, q: nat)
    requires q < PERIODS && x % PERIODS != q
    ensures (x + 1) % PERIODS == q
  {
  }

  lemma ServedWithinLap(t: Turn, n: nat, v: nat, q: nat)
    requires n >= 1 && v < n
    ensures 0 <= ServedBy(t, n, v, q) < n * PERIODS
  {
    DivMod(t.vendorIdx % n, 0, t.vendorIdx % n, n);
    assert n * PERIODS == n + n;
  }

  lemma SecondVisit(t: Turn, n: nat, first: nat, v: nat, q: nat)
    requires n >= 1 && q < PERIODS && t.vendorIdx % n <= first && (t.periodIdx + first / n) % PERIODS != q
    requires (first + n) % n == v && (first + n) / n == first / n + 1
    ensures Choice(AfterCalls(t, n, first + n - t.vendorIdx % n), n) == (v, q)
  {
    OtherPeriod(t.periodIdx + first / n, q);
    Visit(t, n, first + n);
  }

  lemma Served(t: Turn, n: nat, v: nat, q: nat)
    requires n >= 1 && v < n && q < PERIODS
    ensures var j := ServedBy(t, n, v, q);
            0 <= j < n * PERIODS && Choice(AfterCalls(t, n, j), n) == (v, q)
  {
    var a := t.vendorIdx % n;
    var first := if v >= a then v else v + n;
    FirstVisit(a, v, n);
    ServedWithinLap(t, n, v, q);
    if (t.periodIdx + first / n) % PERIODS == q {
      Visit(t, n, first);
    } else {
      SecondVisit(t, n, first, v, q);
    }
  }

  lemma SameVisit(c: nat, d: nat, n: nat, p: nat)
    requires n >= 1 && c <= d < c + n * PERIODS && c % n == d % n && (p + c / n) % PERIODS == (p + d / n) % PERIODS
    ensures c == d
  {
    var laps := d / n - c / n;
    assert c == (c / n) * n + c % n && d == (d / n) * n + d % n;
    assert d - c == laps * n;
    if laps <= -1 {
      Scale(laps, -1, n);
    } else if laps >= PERIODS {
      Scale(PERIODS, laps, n);
    }
  }

  /**
   * The next 2n calls serve every vendor and period exactly once, from any state: also right after the vendor list
   * changed size, and whether or not the calculations succeed.
   */
  lemma EveryPairOnce(t: Turn, n: nat, v: nat, q: nat)
    requires n >= 1 && v < n && q < PERIODS
    ensures 0 <= ServedBy(t, n, v, q) < n * PERIODS
    ensures forall j: nat :: j < n * PERIODS ==> (Choice(AfterCalls(t, n, j), n) == (v, q) <==> j == ServedBy(t, n, v, q))
  {
    Served(t, n, v, q);
    var s := ServedBy(t, n, v, q);
    forall j: nat | j < n * PERIODS && Choice(AfterCalls(t, n, j), n) == (v, q) ensures j == s {
      if j <= s {
        SameCall(t, n, j, s);
      } else {
        SameCall(t, n, s, j);
      }
    }
  }

  lemma SameCall(t: Turn, n: nat, j: nat, s: nat)
    requires n >= 1 && j <= s < n * PERIODS
    requires Choice(AfterCalls(t, n, j), n) == Choice(AfterCalls(t, n, s), n)
    ensures j == s
  {
    CallChooses(t, n, j);
    CallChooses(t, n, s);
    SameSlot(t.vendorIdx % n + j, t.vendorIdx % n + s, n, t.periodIdx, Choice(AfterCalls(t, n, j), n));
  }

  lemma SameSlot(c: nat, d: nat, n: nat, p: nat, slot: (nat, nat))
    requires n >= 1 && c <= d < c + n * PERIODS
    requires slot == (c % n, (p + c / n) % PERIODS) && slot == (d % n, (p + d / n) % PERIODS)
    ensures c == d
  {
    SameVisit(c, d, n, p);
  }

  /** Hence consecutive recomputations of a pair are exactly 2n calls apart while the list keeps its size. */
  lemma SteadyInterval(t: Turn, n: nat, j: nat)
    requires n >= 1
    ensures Choice(AfterCalls(t, n, j + n * PERIODS), n) == Choice(AfterCalls(t, n, j), n)
  {
    CallChooses(t, n, j);
    CallChooses(t, n, j + n * PERIODS);
    SamePlace(t.vendorIdx % n + j, t.vendorIdx % n + (j + n * PERIODS), n, t.periodIdx);
  }

  lemma SamePlace(c: nat, d: nat, n: nat, p: nat)
    requires n >= 1 && d == c + n * PERIODS
    ensures d % n == c % n && (p + d / n) % PERIODS == (p + c / n) % PERIODS
  {
    LapLater(c, n);
  }

  lemma LapLater(c: nat, n: nat)
    requires n >= 1
    ensures (c + n * PERIODS) % n == c % n && (c + n * PERIODS) / n == c / n + PERIODS
  {
    var q, r := c / n, c % n;
    assert c == q * n + r;
    Laps(1, q, n);
    DivMod(c + n * PERIODS, PERIODS + q, r, n);
  }
}
