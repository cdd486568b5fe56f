/** Why the cap test may run on doubles: over whole-cent amounts, with every
    conversion and addition off by a relative 2^-53 at most, it decides as
    whole cents would, for every table of a day up to a proved size. */
module FloatMargin {

  const UNIT: real := 1.0 / 9007199254740992.0

  // y is a double for x: off by at most one part in 2^53.
  predicate Near(x: real, y: real) {
    var slack := UNIT * (if x >= 0.0 then x else -x);
    x - slack <= y <= x + slack
  }

  function Dollars(cents: int): real {
    cents as real / 100.0
  }

  const MOST_CENTS := 100000
  const MOST_ROWS := 8992

  function Total(cents: seq<nat>): nat {
    if cents == [] then 0 else Total(cents[..|cents| - 1]) + cents[|cents| - 1]
  }

  // A day's rows summed one after another, each amount and each partial sum
  // rounded.
  ghost predicate Summed(cents: seq<nat>, amounts: seq<real>, sums: seq<real>) {
    && |amounts| == |cents| && |sums| == |cents| + 1 && sums[0] == 0.0
    && forall i :: 0 <= i < |cents| ==>
         Near(Dollars(cents[i]), amounts[i]) && Near(sums[i] + amounts[i], sums[i + 1])
  }

  // The error of the sum of n rows.
  function Slack(cents: seq<nat>): real {
    UNIT * (Dollars(Total(cents)) + 1001.0 * |cents| as real)
  }

  lemma {:induction false} SumError(cents: seq<nat>, amounts: seq<real>, sums: seq<real>)
    requires Summed(cents, amounts, sums) && Total(cents) <= MOST_CENTS && |cents| <= MOST_ROWS
    ensures Dollars(Total(cents)) - Slack(cents) <= sums[|cents|] <= Dollars(Total(cents)) + Slack(cents)
  {
    if cents != [] {
      var n := |cents| - 1;
      assert Summed(cents[..n], amounts[..n], sums[..n + 1]);
      SumError(cents[..n], amounts[..n], sums[..n + 1]);
      AddError(Total(cents[..n]), n, sums[n], cents[n], amounts[n], sums[n + 1]);
    }
  }

  // One more row on a sum that is already off.
  lemma AddError(before: nat, rows: nat, sum: real, cents: nat, amount: real, next: real)
    requires before + cents <= MOST_CENTS && rows < MOST_ROWS
    requires Near(Dollars(cents), amount) && Near(sum + amount, next)
    requires var e := UNIT * (Dollars(before) + 1001.0 * rows as real); Dollars(before) - e <= sum <= Dollars(before) + e
    ensures var e := UNIT * (Dollars(before + cents) + 1001.0 * (rows + 1) as real);
            Dollars(before + cents) - e <= next <= Dollars(before + cents) + e
  {
    assert Dollars(before + cents) == Dollars(before) + Dollars(cents);
    assert (rows + 1) as real == rows as real + 1.0;
    assert 1001.0 * rows as real <= 1001.0 * 8992.0;
    assert -1.0 <= sum + amount - Dollars(before + cents) <= 1.0;
  }

  // The test of try_reserve on doubles: spent + amount > cap + 1e-9, with
  // each of the four numbers and both additions rounded.
  ghost predicate Evaluated(spent: real, amountCents: nat, capCents: nat, left: real, right: real) {
    exists amount: real, cap: real, tolerance: real ::
      && Near(Dollars(amountCents), amount) && Near(Dollars(capCents), cap) && Near(0.000000001, tolerance)
      && Near(spent + amount, left) && Near(cap + tolerance, right)
  }

  // For every day of up to 8992 counted rows within the largest cap, every
  // amount and every cap up to 1000 dollars, however each step rounds: the
  // test rejects exactly when the whole cents exceed the cap -- so what it
  // admits keeps the day within the largest cap in turn.
  lemma {:induction false} CentsDecide(
      cents: seq<nat>, amounts: seq<real>, sums: seq<real>, amountCents: nat, capCents: nat, left: real, right: real)
    requires Summed(cents, amounts, sums) && |cents| <= MOST_ROWS && Total(cents) <= MOST_CENTS
    requires amountCents <= MOST_CENTS && capCents <= MOST_CENTS
    requires Evaluated(sums[|cents|], amountCents, capCents, left, right)
    ensures left > right <==> Total(cents) + amountCents > capCents
    ensures !(left > right) ==> Total(cents + [amountCents]) <= MOST_CENTS
  {
    hide Near;
    hide Evaluated;
    SumError(cents, amounts, sums);
    TestError(cents, sums[|cents|], amountCents, capCents, left, right);
    Margin(Total(cents) + amountCents, capCents, |cents|, left, right);
    assert (cents + [amountCents])[..|cents|] == cents;
  }

  // Both sides of the test are near what they should be.
  lemma TestError(cents: seq<nat>, spent: real, amountCents: nat, capCents: nat, left: real, right: real)
    requires |cents| <= MOST_ROWS && Total(cents) <= MOST_CENTS && amountCents <= MOST_CENTS && capCents <= MOST_CENTS
    requires Dollars(Total(cents)) - Slack(cents) <= spent <= Dollars(Total(cents)) + Slack(cents)
    requires Evaluated(spent, amountCents, capCents, left, right)
    ensures var e := UNIT * (4001.0 + 1001.0 * |cents| as real); var exact := Dollars(Total(cents) + amountCents);
            exact - e <= left <= exact + e
    ensures var e := UNIT * 2002.0; var exact := Dollars(capCents) + 0.000000001; exact - e <= right <= exact + e
  {
    hide Near;
    hide Slack;
    hide Total;
    hide Dollars;
    var amount: real, cap: real, tolerance: real :|
      && Near(Dollars(amountCents), amount) && Near(Dollars(capCents), cap) && Near(0.000000001, tolerance)
      && Near(spent + amount, left) && Near(cap + tolerance, right);
    LeftError(cents, spent, amountCents, amount, left);
    RightError(capCents, cap, tolerance, right);
  }

  lemma LeftError(cents: seq<nat>, spent: real, amountCents: nat, amount: real, left: real)
    requires |cents| <= MOST_ROWS && Total(cents) <= MOST_CENTS && amountCents <= MOST_CENTS
    requires Dollars(Total(cents)) - Slack(cents) <= spent <= Dollars(Total(cents)) + Slack(cents)
    requires Near(Dollars(amountCents), amount) && Near(spent + amount, left)
    ensures var e := UNIT * (4001.0 + 1001.0 * |cents| as real); var exact := Dollars(Total(cents) + amountCents);
            exact - e <= left <= exact + e
  {
    assert Dollars(Total(cents) + amountCents) == Dollars(Total(cents)) + Dollars(amountCents);
    assert 1001.0 * |cents| as real <= 1001.0 * 8992.0;
    assert -1.0 <= spent + amount - Dollars(Total(cents) + amountCents) <= 1.0;
  }

  lemma RightError(capCents: nat, cap: real, tolerance: real, right: real)
    requires capCents <= MOST_CENTS
    requires Near(Dollars(capCents), cap) && Near(0.000000001, tolerance) && Near(cap + tolerance, right)
    ensures var e := UNIT * 2002.0; var exact := Dollars(capCents) + 0.000000001;
            exact - e <= right <= exact + e
  {
  }

  // A cent is far more than the tolerance, and the tolerance is more than
  // all the rounding together.
  lemma Margin(spendCents: nat, capCents: nat, rows: nat, left: real, right: real)
    requires rows <= MOST_ROWS
    requires var e := UNIT * (4001.0 + 1001.0 * rows as real); Dollars(spendCents) - e <= left <= Dollars(spendCents) + e
    requires var e := UNIT * 2002.0; var exact := Dollars(capCents) + 0.000000001; exact - e <= right <= exact + e
    ensures left > right <==> spendCents > capCents
  {
    assert 1001.0 * rows as real <= 1001.0 * 8992.0;
    if spendCents > capCents {
      assert Dollars(spendCents) >= Dollars(capCents) + 0.01;
    } else {
      assert Dollars(spendCents) <= Dollars(capCents);
    }
  }

  // ---- a day decided in floating point ----

  // A request tested on rounded numbers, with the roundings that happened; or
  // the denial of the row at k, which takes it out of the sum.
  datatype DayStep =
    | Ask(amounts: seq<real>, sums: seq<real>, amountCents: nat, capCents: nat, left: real, right: real)
    | Release(k: nat)

  ghost predicate Rounded(cents: seq<nat>, step: DayStep) {
    match step
    case Ask(amounts, sums, amountCents, capCents, left, right) =>
      && |cents| <= MOST_ROWS && amountCents <= MOST_CENTS && capCents <= MOST_CENTS
      && Summed(cents, amounts, sums) && Evaluated(sums[|cents|], amountCents, capCents, left, right)
    case Release(_) => true
  }

  function NextDay(cents: seq<nat>, step: DayStep): seq<nat> {
    match step
    case Ask(_, _, amountCents, _, left, right) => if left > right then cents else cents + [amountCents]
    case Release(k) => if k < |cents| then cents[..k] + cents[k + 1..] else cents
  }

  function Day(steps: seq<DayStep>): seq<nat> {
    if steps == [] then [] else NextDay(Day(steps[..|steps| - 1]), steps[|steps| - 1])
  }

  ghost predicate AllRounded(steps: seq<DayStep>) {
    steps == [] || (AllRounded(steps[..|steps| - 1]) && Rounded(Day(steps[..|steps| - 1]), steps[|steps| - 1]))
  }

  // The cap that the latest admission was tested against.
  function LatestCap(steps: seq<DayStep>): nat {
    if steps == [] then 0
    else
      var step := steps[|steps| - 1];
      if step.Ask? && !(step.left > step.right) then step.capCents else LatestCap(steps[..|steps| - 1])
  }

  lemma TotalMore(cents: seq<nat>, c: nat)
    ensures Total(cents + [c]) == Total(cents) + c
  {
    assert (cents + [c])[..|cents|] == cents;
  }

  lemma {:induction false} TotalWithout(cents: seq<nat>, k: nat)
    requires k < |cents|
    ensures Total(cents[..k] + cents[k + 1..]) == Total(cents) - cents[k]
  {
    hide Total;
    var n := |cents| - 1;
    var front := cents[..n];
    assert front + [cents[n]] == cents;
    TotalMore(front, cents[n]);
    if k < n {
      TotalWithout(front, k);
      TotalMore(front[..k] + front[k + 1..], cents[n]);
      assert cents[..k] + cents[k + 1..] == front[..k] + front[k + 1..] + [cents[n]];
    } else {
      assert cents[..k] + cents[k + 1..] == front;
    }
  }

  // However each step rounds, as long as every test sums at most 8992 counted
  // rows and every amount and cap is at most 1000 dollars, a day's whole cents
  // never exceed the cap that its latest admission was tested against: neither
  // the tolerance nor the error of a sum lets a cent through.
  lemma {:induction false} DayWithinCap(steps: seq<DayStep>)
    requires AllRounded(steps)
    ensures Total(Day(steps)) <= LatestCap(steps) <= MOST_CENTS
  {
    hide Evaluated;
    hide Summed;
    if steps != [] {
      var front, step := steps[..|steps| - 1], steps[|steps| - 1];
      var cents := Day(front);
      DayWithinCap(front);
      match step
      case Ask(amounts, sums, amountCents, capCents, left, right) =>
        CentsDecide(cents, amounts, sums, amountCents, capCents, left, right);
        assert (cents + [amountCents])[..|cents|] == cents;
      case Release(k) => if k < |cents| { TotalWithout(cents, k); }
    }
  }
}
