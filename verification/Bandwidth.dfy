/**
  Rate arithmetic, written once in Python for the server (server/app/bandwidth.py) and once
  in Go for the agent (agent/internal/domain/rateconv.go). Floating point is taken as exact
  real arithmetic; the safety margin 0.90 is 9/10.
*/
module Bandwidth {
  import opened Options

  const AGENT_SAFETY_MARGIN: real := 0.9
  const MAX_RESTIC_KIBPS: real := 100000.0
  const MIN_BUDGET_PERCENT: int := 5
  const MAX_BUDGET_PERCENT: int := 50
  const MAX_INT64: real := 9223372036854775807.0

  /** Python's `round`: to the nearest integer, ties to the even one. */
  function RoundHalfEven(x: real): int {
    var below := x.Floor;
    var rest := x - below as real;
    if rest < 0.5 then below
    else if rest > 0.5 then below + 1
    else if below % 2 == 0 then below else below + 1
  }

  /** Go's `math.Round` for a value that is not negative: ties away from zero. */
  function RoundHalfUp(x: real): int {
    (x + 0.5).Floor
  }

  function SiteBudgetBps(measuredMbps: real, percent: int): Option<int> {
    if measuredMbps <= 0.0 || percent < MIN_BUDGET_PERCENT || percent > MAX_BUDGET_PERCENT then None
    else Some(RoundHalfEven(measuredMbps * 1000000.0 * percent as real / 100.0))
  }

  function GoSiteBudgetBps(measuredMbps: real, percent: int): Option<int> {
    if measuredMbps <= 0.0 || percent < 5 || percent > 50 then None
    else
      var bps := measuredMbps * 1000000.0 * percent as real / 100.0;
      if bps > MAX_INT64 then None else Some(RoundHalfUp(bps))
  }

  /** KiB/s of upload per job when the budget is split evenly, before the guards. */
  function FairShare(bps: int, jobs: int): int
    requires jobs >= 1
  {
    (bps as real / 8.0 / 1024.0 * AGENT_SAFETY_MARGIN / jobs as real).Floor
  }

  function AgentCeilingKibps(bps: int, jobs: int): Option<int> {
    if jobs < 1 || bps <= 0 then None
    else
      var share := bps as real / 8.0 / 1024.0 * AGENT_SAFETY_MARGIN / jobs as real;
      if share > MAX_RESTIC_KIBPS || share.Floor < 1 then None else Some(share.Floor)
  }

  /** The agent floors to whole bytes per second before it converts. */
  function GoAgentCeilingKibps(bps: int, jobs: int): Option<int> {
    if jobs < 1 || bps <= 0 || bps / 8 <= 0 then None
    else
      var share := (bps / 8) as real / 1024.0 * AGENT_SAFETY_MARGIN / jobs as real;
      if share > MAX_RESTIC_KIBPS || share.Floor < 1 then None else Some(share.Floor)
  }

  datatype Compiled = Compiled(bps: int, gatewayBytesPerSec: int, agentKibps: int)

  /** None stands for `ok: False` and for a BandwidthError alike, as `compile_for_site` treats them. */
  function CompileSite(measuredMbps: Option<real>, percent: int, jobs: int): Option<Compiled> {
    if measuredMbps.None? then None
    else
      match SiteBudgetBps(measuredMbps.value, percent)
      case None => None
      case Some(bps) =>
        match AgentCeilingKibps(bps, jobs)
        case None => None
        case Some(kibps) => Some(Compiled(bps, bps / 8, kibps))
  }

  // ---- properties ----

  /** A floored quotient, as a bound on products. */
  lemma FloorBounds(x: real, n: int)
    requires n >= 1
    ensures var q := (x / n as real).Floor; q as real * n as real <= x < (q + 1) as real * n as real
  {
    var q := (x / n as real).Floor;
    assert q as real <= x / n as real < (q + 1) as real;
    assert x / n as real * n as real == x;
    MulLe(q as real, x / n as real, n as real);
    MulLt(x / n as real, (q + 1) as real, n as real);
  }

  lemma MulLe(a: real, b: real, k: real)
    requires a <= b && k > 0.0
    ensures a * k <= b * k
  {
  }

  lemma MulLt(a: real, b: real, k: real)
    requires a < b && k > 0.0
    ensures a * k < b * k
  {
  }

  lemma NotBelow(x: real, k: int, q: int, n: real)
    requires n > 0.0 && q as real * n <= x < (k + 1) as real * n
    ensures q <= k
  {
    assert q >= k + 1 ==> q as real * n >= (k + 1) as real * n;
  }

  /** A floored quotient is the one whole number whose multiple the numerator reaches and the next one's does not. */
  lemma FloorExactly(x: real, n: int, k: int)
    requires n >= 1
    ensures (x / n as real).Floor == k <==> k as real * n as real <= x < (k + 1) as real * n as real
  {
    FloorBounds(x, n);
    var q := (x / n as real).Floor;
    if k as real * n as real <= x < (k + 1) as real * n as real {
      NotBelow(x, k, q, n as real);
      NotBelow(x, q, k, n as real);
    }
  }

  lemma InWholeBits(bps: int, m: int)
    ensures m as real <= bps as real / 8.0 / 1024.0 * AGENT_SAFETY_MARGIN <==> 81920 * m <= 9 * bps
  {
    assert bps as real / 8.0 / 1024.0 * AGENT_SAFETY_MARGIN == (9 * bps) as real / 81920.0;
    assert (81920 * m) as real == 81920.0 * m as real;
  }

  /** In whole numbers: the share is the largest that all the jobs together fit with in nine tenths of the budget. */
  lemma FairShareIsMost(bps: int, n: int, kibps: int)
    requires n >= 1
    ensures FairShare(bps, n) == kibps <==> 81920 * (kibps * n) <= 9 * bps < 81920 * ((kibps + 1) * n)
  {
    FloorExactly(bps as real / 8.0 / 1024.0 * AGENT_SAFETY_MARGIN, n, kibps);
    InWholeBits(bps, kibps * n);
    InWholeBits(bps, (kibps + 1) * n);
    assert (kibps * n) as real == kibps as real * n as real && ((kibps + 1) * n) as real == (kibps + 1) as real * n as real;
  }

  /** The ceiling of n jobs is the most KiB/s that nine tenths of the budget can give each of them, from 1 to 100000. */
  lemma CeilingIsMost(bps: int, n: int, kibps: int)
    ensures AgentCeilingKibps(bps, n) == Some(kibps) <==>
      n >= 1 && kibps >= 1 && 81920 * (kibps * n) <= 9 * bps < 81920 * ((kibps + 1) * n) && 9 * bps <= 81920 * (100000 * n)
  {
    if n >= 1 {
      var budget := bps as real / 8.0 / 1024.0 * AGENT_SAFETY_MARGIN;
      FloorExactly(budget, n, kibps);
      InWholeBits(bps, kibps * n);
      InWholeBits(bps, (kibps + 1) * n);
      InWholeBits(bps, 100000 * n);
      assert (kibps * n) as real == kibps as real * n as real && ((kibps + 1) * n) as real == (kibps + 1) as real * n as real;
      ShareAtMost(budget, n);
      assert (100000 * n) as real == 100000.0 * n as real;
      assert kibps >= 1 ==> kibps * n >= 1;
    }
  }

  lemma ShareAtMost(x: real, n: int)
    requires n >= 1
    ensures x / n as real <= MAX_RESTIC_KIBPS <==> x <= MAX_RESTIC_KIBPS * n as real
  {
    assert x / n as real * n as real == x;
    if x / n as real <= MAX_RESTIC_KIBPS { MulLe(x / n as real, MAX_RESTIC_KIBPS, n as real); }
    else { MulLt(MAX_RESTIC_KIBPS, x / n as real, n as real); }
  }

  /** The budget is the nearest whole number of bits to 5 to 50 percent of the measured rate, the even one on a tie. */
  lemma BudgetIsNearest(measuredMbps: real, percent: int)
    ensures SiteBudgetBps(measuredMbps, percent).Some? <==> measuredMbps > 0.0 && 5 <= percent <= 50
    ensures SiteBudgetBps(measuredMbps, percent).Some? ==>
      var bps, exact := SiteBudgetBps(measuredMbps, percent).value, measuredMbps * 1000000.0 * percent as real / 100.0;
      -0.5 <= bps as real - exact <= 0.5 && (bps as real - exact == 0.5 || bps as real - exact == -0.5 ==> bps % 2 == 0)
  {
  }

  /** Budget and ceiling together; the gateway's cap is the budget in whole bytes. */
  lemma CompiledExactly(measuredMbps: Option<real>, percent: int, jobs: int, bps: int, bytes: int, kibps: int)
    ensures CompileSite(measuredMbps, percent, jobs) == Some(Compiled(bps, bytes, kibps)) <==>
      && measuredMbps.Some? && SiteBudgetBps(measuredMbps.value, percent) == Some(bps)
      && 8 * bytes <= bps < 8 * bytes + 8 && AgentCeilingKibps(bps, jobs) == Some(kibps)
  {
  }

  /** n agents at the compiled ceiling stay under the gateway's cap together. */
  lemma AgentsFitUnderGateway(bps: int, n: int, kibps: int)
    requires AgentCeilingKibps(bps, n) == Some(kibps)
    ensures n * kibps * 1024 <= bps / 8
  {
    var budget := bps as real / 8.0 / 1024.0 * AGENT_SAFETY_MARGIN;
    FloorBounds(budget, n);
    assert kibps as real * n as real <= budget;
    assert (kibps * n) as real == kibps as real * n as real;
    assert budget * 1024.0 <= bps as real / 8.0;
    assert ((kibps * n) * 1024) as real <= bps as real / 8.0;
    assert (kibps * n) * 1024 * 8 <= bps;
  }

  lemma QuotientNonnegative(x: real, n: int)
    requires x >= 0.0 && n >= 1
    ensures (x / n as real).Floor >= 0
  {
    assert x / n as real >= 0.0;
  }

  lemma QuotientShrinks(x: real, few: int, many: int)
    requires x >= 0.0 && 1 <= few <= many
    ensures (x / many as real).Floor <= (x / few as real).Floor
  {
    FloorBounds(x, few);
    FloorBounds(x, many);
    QuotientNonnegative(x, few);
    var p, q := (x / few as real).Floor, (x / many as real).Floor;
    if q >= p + 1 {
      var k, f, m := (p + 1) as real, few as real, many as real;
      calc {
        x;
      <
        k * f;
      ==
        f * k;
      <= { MulLe(f, m, k); }
        m * k;
      ==
        k * m;
      <= { MulLe(k, q as real, m); }
        q as real * m;
      <=
        x;
      }
    }
  }

  /** The share never grows with the number of jobs. */
  lemma FairShareShrinks(bps: int, few: int, many: int)
    requires bps >= 0 && 1 <= few <= many
    ensures FairShare(bps, many) <= FairShare(bps, few)
    ensures FairShare(bps, many) >= 0
  {
    var budget := bps as real / 8.0 / 1024.0 * AGENT_SAFETY_MARGIN;
    QuotientShrinks(budget, few, many);
    QuotientNonnegative(budget, many);
  }

  lemma CeilingShrinks(bps: int, few: int, many: int)
    requires few <= many && AgentCeilingKibps(bps, few).Some? && AgentCeilingKibps(bps, many).Some?
    ensures AgentCeilingKibps(bps, many).value <= AgentCeilingKibps(bps, few).value
  {
    FairShareShrinks(bps, few, many);
  }

  lemma FullShare(x: real, n: int)
    requires n >= 1 && (x / n as real).Floor >= 1
    ensures x.Floor >= n
  {
    FloorBounds(x, n);
    var k, q := n as real, (x / n as real).Floor as real;
    calc {
      k;
    ==
      1.0 * k;
    <= { MulLe(1.0, q, k); }
      q * k;
    <=
      x;
    }
  }

  lemma NoFullShare(x: real, n: int)
    requires n >= 1 && (x / n as real).Floor < 1
    ensures x.Floor < n
  {
    FloorBounds(x, n);
    var k, q := n as real, ((x / n as real).Floor + 1) as real;
    calc {
      x;
    <
      q * k;
    <= { MulLe(q, 1.0, k); }
      1.0 * k;
    ==
      k;
    }
  }

  lemma QuotientAtMost(x: real, n: int)
    requires x >= 0.0 && n >= 1
    ensures x / n as real <= x
  {
    var y, k := x / n as real, n as real;
    assert y >= 0.0 && y * k == x;
    if y > 0.0 {
      calc {
        y;
      ==
        1.0 * y;
      <= { MulLe(1.0, k, y); }
        k * y;
      ==
        x;
      }
    }
  }

  /** Once one job has a ceiling, n jobs have none exactly when that ceiling is below n. */
  lemma SplitCeilingFails(bps: int, n: int)
    requires n >= 1 && AgentCeilingKibps(bps, 1).Some?
    ensures AgentCeilingKibps(bps, n).None? <==> AgentCeilingKibps(bps, 1).value < n
  {
    var budget := bps as real / 8.0 / 1024.0 * AGENT_SAFETY_MARGIN;
    assert budget / 1 as real == budget;
    QuotientAtMost(budget, n);
    if (budget / n as real).Floor >= 1 { FullShare(budget, n); } else { NoFullShare(budget, n); }
  }

  lemma StepTooFar(low: real, high: real, k: real, x: real, y: real)
    requires k >= 1.0 && high >= low + 1.0 && y < low * k && high * k <= x
    ensures x >= y + 1.0
  {
    MulLe(low + 1.0, high, k);
    assert (low + 1.0) * k == low * k + k;
  }

  lemma FloorNotAbove(x: real, y: real, n: int)
    requires n >= 1 && y <= x
    ensures (y / n as real).Floor <= (x / n as real).Floor
  {
    FloorBounds(x, n);
    FloorBounds(y, n);
    var p, q := (x / n as real).Floor, (y / n as real).Floor;
    if q >= p + 1 {
      calc {
        x;
      <
        (p + 1) as real * n as real;
      <= { MulLe((p + 1) as real, q as real, n as real); }
        q as real * n as real;
      <=
        y;
      <=
        x;
      }
    }
  }

  lemma FloorNotFarBelow(x: real, y: real, n: int)
    requires n >= 1 && x < y + 1.0
    ensures (y / n as real).Floor >= (x / n as real).Floor - 1
  {
    FloorBounds(x, n);
    FloorBounds(y, n);
    var p, q := (x / n as real).Floor, (y / n as real).Floor;
    if q + 1 <= p - 1 { StepTooFar((q + 1) as real, p as real, n as real, x, y); }
  }

  /** Numerators less than one apart have floored quotients at most one apart. */
  lemma CloseFloors(x: real, y: real, n: int)
    requires n >= 1 && y <= x < y + 1.0
    ensures var p, q := (x / n as real).Floor, (y / n as real).Floor; q == p || q == p - 1
  {
    FloorNotAbove(x, y, n);
    FloorNotFarBelow(x, y, n);
  }

  /** For one budget the agent's ceiling is the server's or one less, and never more. */
  lemma GoCeilingIsServersOrOneLess(bps: int, jobs: int)
    requires AgentCeilingKibps(bps, jobs).Some? && GoAgentCeilingKibps(bps, jobs).Some?
    ensures
      var server, agent := AgentCeilingKibps(bps, jobs).value, GoAgentCeilingKibps(bps, jobs).value;
      && (agent == server || agent == server - 1)
      && (bps % 8 == 0 ==> agent == server)
  {
    var exact := bps as real / 8.0 / 1024.0 * AGENT_SAFETY_MARGIN;
    var floored := (bps / 8) as real / 1024.0 * AGENT_SAFETY_MARGIN;
    assert (bps / 8) as real <= bps as real / 8.0 < (bps / 8) as real + 1.0;
    assert bps % 8 == 0 ==> floored == exact;
    CloseFloors(exact, floored, jobs);
  }

  /** The difference does occur. */
  lemma GoCeilingCanBeOneLess()
    ensures AgentCeilingKibps(18205, 1) == Some(2) && GoAgentCeilingKibps(18205, 1) == Some(1)
  {
    assert (18205.0 / 8.0 / 1024.0 * 0.9 / 1.0).Floor == 2;
    assert (2275.0 / 1024.0 * 0.9 / 1.0).Floor == 1;
  }

  /** The two budgets differ only on an exact half above an even number, and then by one bit per second. */
  lemma BudgetsDifferOnlyOnTies(measuredMbps: real, percent: int)
    requires SiteBudgetBps(measuredMbps, percent).Some? && GoSiteBudgetBps(measuredMbps, percent).Some?
    ensures
      var exact := measuredMbps * 1000000.0 * percent as real / 100.0;
      var server, agent := SiteBudgetBps(measuredMbps, percent).value, GoSiteBudgetBps(measuredMbps, percent).value;
      && (agent == server || agent == server + 1)
      && (agent == server + 1 <==> exact == exact.Floor as real + 0.5 && exact.Floor % 2 == 0)
  {
    var exact := measuredMbps * 1000000.0 * percent as real / 100.0;
    var below := exact.Floor;
    var rest := exact - below as real;
    assert 0.0 <= rest < 1.0;
    if rest < 0.5 {
      assert (exact + 0.5).Floor == below;
    } else {
      assert (exact + 0.5).Floor == below + 1;
    }
  }
}
