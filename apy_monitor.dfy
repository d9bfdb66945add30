/**
 * The rate monitor: the start/stop state, the hourly update cycle that
 * rewrites drifted rates, appends rate history and checks every active
 * deposit for a worthwhile move, and the history queries.
 *
 * The database tables the monitor reads and writes (vaults, deposits,
 * yield history) are fields of the monitor; the rebalance messages it logs
 * are collected in a `recommendations` field.
 */
module ApyMonitor {

  import opened Wrappers
  import opened Sorting
  import opened VaultService
  import opened YieldOptimizer

  /** The period of the interval timer, one hour in milliseconds. */
  const UpdateIntervalMs: nat := 3600000
  /** A fetched rate is written only when it moves by more than this many points. */
  const DriftThreshold: real := 0.1
  /** The top opportunity is worth a move only when it beats the current rate by more than this. */
  const RebalanceThreshold: real := 1.0
  const MsPerDay: int := 86400000
  const DefaultHistoryDays: int := 30
  const DefaultAverageDays: int := 7

  datatype Deposit = Deposit(id: string, vaultId: Option<string>, convertedAmount: real, status: string)

  datatype YieldRecord = YieldRecord(vaultId: string, apy: real, tvl: real, recordedAt: int)

  /** The logged "Rebalance opportunity" message: which deposit, from which vault snapshot, to which vault. */
  datatype Recommendation = Recommendation(depositId: string, fromVault: Vault, toVault: Vault)

  /** A running interval timer. */
  datatype Timer = Timer(periodMs: nat)

  /** Everything the monitor can change, as one value. */
  datatype Tables = Tables(
    vaults: seq<Vault>,
    deposits: seq<Deposit>,
    history: seq<YieldRecord>,
    recommendations: seq<Recommendation>)

  function Abs(x: real): real { if x < 0.0 then -x else x }
  function Max(x: real, y: real): real { if x < y then y else x }

  predicate Drifted(stored: real, fetched: real) {
    Abs(fetched - stored) > DriftThreshold
  }

  /** The rows of `select * from vaults where is_active`, in table order. */
  function ActiveVaults(vaults: seq<Vault>): (r: seq<Vault>)
    ensures forall v {:trigger v in r} :: v in r <==> v in vaults && v.isActive
    ensures forall v {:trigger multiset(r)[v]} :: multiset(r)[v] == if v.isActive then multiset(vaults)[v] else 0
    ensures |r| <= |vaults|
  {
    if vaults == [] then []
    else
      assert vaults == [vaults[0]] + vaults[1..];
      assert multiset(vaults) == multiset{vaults[0]} + multiset(vaults[1..]);
      (if vaults[0].isActive then [vaults[0]] else []) + ActiveVaults(vaults[1..])
  }

  /** The active deposits held in vault `vaultId`, in table order. */
  function ActiveDepositsOf(deposits: seq<Deposit>, vaultId: string): (r: seq<Deposit>)
    ensures forall d {:trigger d in r} :: d in r <==> d in deposits && d.vaultId == Some(vaultId) && d.status == "active"
    ensures forall d {:trigger multiset(r)[d]} ::
      multiset(r)[d] == if d.vaultId == Some(vaultId) && d.status == "active" then multiset(deposits)[d] else 0
  {
    if deposits == [] then []
    else
      assert deposits == [deposits[0]] + deposits[1..];
      assert multiset(deposits) == multiset{deposits[0]} + multiset(deposits[1..]);
      (if deposits[0].vaultId == Some(vaultId) && deposits[0].status == "active" then [deposits[0]] else [])
        + ActiveDepositsOf(deposits[1..], vaultId)
  }

  /** `update vaults set current_apy, updated_at where id = vaultId`. */
  function WithApy(vaults: seq<Vault>, vaultId: string, apy: real, now: int): (r: seq<Vault>)
    ensures |r| == |vaults|
    ensures forall i {:trigger r[i]} :: 0 <= i < |vaults| ==>
      r[i] == if vaults[i].id == vaultId then vaults[i].(currentApy := apy, updatedAt := now) else vaults[i]
  {
    seq(|vaults|, i requires 0 <= i < |vaults| =>
      if vaults[i].id == vaultId then vaults[i].(currentApy := apy, updatedAt := now) else vaults[i])
  }

  /**
   * The recommendations logged for the deposits of one vault, in deposit
   * order: at most one per deposit, each moving out of `vault`.
   */
  function RebalanceRecommendations(vault: Vault, allVaults: seq<Vault>, deposits: seq<Deposit>): (r: seq<Recommendation>)
    ensures |r| <= |deposits|
    ensures forall x {:trigger x in r} :: x in r ==> x.fromVault == vault
  {
    if |deposits| == 0 then []
    else
      var n := |deposits| - 1;
      var opportunities := Opportunities(Some(vault), allVaults, deposits[n].convertedAmount);
      RebalanceRecommendations(vault, allVaults, deposits[..n])
        + (if |opportunities| > 0 && opportunities[0].apyDifference > RebalanceThreshold
           then [Recommendation(deposits[n].id, vault, opportunities[0].suggestedVault)]
           else [])
  }

  /**
   * What `checkRebalanceOpportunities(vault)` logs: the active deposits of
   * the vault checked against the active vaults as the table holds them now.
   */
  function RebalanceCheck(vaults: seq<Vault>, deposits: seq<Deposit>, vault: Vault): (r: seq<Recommendation>)
    ensures forall x {:trigger x in r} :: x in r ==> x.fromVault == vault
    ensures r != [] ==> exists d {:trigger d in deposits} :: d in deposits && d.vaultId == Some(vault.id) && d.status == "active"
  {
    ghost var active := ActiveDepositsOf(deposits, vault.id);
    assert active != [] ==> active[0] in active;
    RebalanceRecommendations(vault, ActiveVaults(vaults), ActiveDepositsOf(deposits, vault.id))
  }

  /** The vault table after one snapshot vault's fetched rate is handled. */
  function VaultStep(vaults: seq<Vault>, vault: Vault, newApy: real, now: int): seq<Vault> {
    if Drifted(vault.currentApy, newApy) then WithApy(vaults, vault.id, newApy, now) else vaults
  }

  /** The vault table after a cycle over `snapshot` with the rates `fetched` for it. */
  function CycleVaults(vaults: seq<Vault>, snapshot: seq<Vault>, fetched: seq<real>, now: int): (r: seq<Vault>)
    requires |fetched| == |snapshot|
    ensures |r| == |vaults|
  {
    if |snapshot| == 0 then vaults
    else
      var n := |snapshot| - 1;
      VaultStep(CycleVaults(vaults, snapshot[..n], fetched[..n], now), snapshot[n], fetched[n], now)
  }

  /** The history records a cycle appends: one per drifted vault, in snapshot order. */
  function DriftRecords(snapshot: seq<Vault>, fetched: seq<real>, now: int): (r: seq<YieldRecord>)
    requires |fetched| == |snapshot|
    ensures |r| <= |snapshot|
    ensures forall x {:trigger x in r} :: x in r ==> x.recordedAt == now
  {
    if |snapshot| == 0 then []
    else
      var n := |snapshot| - 1;
      DriftRecords(snapshot[..n], fetched[..n], now)
        + (if Drifted(snapshot[n].currentApy, fetched[n])
           then [YieldRecord(snapshot[n].id, fetched[n], snapshot[n].tvl, now)]
           else [])
  }

  /**
   * The recommendations a cycle logs. Each snapshot vault is checked after
   * its own rate write, against the vault table as it stands then.
   */
  function CycleRecommendations(vaults: seq<Vault>, deposits: seq<Deposit>, snapshot: seq<Vault>, fetched: seq<real>, now: int)
    : (r: seq<Recommendation>)
    requires |fetched| == |snapshot|
    ensures forall x {:trigger x in r} :: x in r ==> exists k {:trigger snapshot[k]} :: 0 <= k < |snapshot| && x.fromVault == snapshot[k]
  {
    if |snapshot| == 0 then []
    else
      var n := |snapshot| - 1;
      CycleRecommendations(vaults, deposits, snapshot[..n], fetched[..n], now)
        + RebalanceCheck(CycleVaults(vaults, snapshot, fetched, now), deposits, snapshot[n])
  }

  /**
   * The tables after one update cycle over the snapshot of active vaults:
   * the same rows and deposits, with records and recommendations only
   * appended.
   */
  function Cycle(t: Tables, snapshot: seq<Vault>, fetched: seq<real>, now: int): (r: Tables)
    requires |fetched| == |snapshot|
    ensures |r.vaults| == |t.vaults| && r.deposits == t.deposits
    ensures t.history <= r.history && t.recommendations <= r.recommendations
  {
    Tables(
      CycleVaults(t.vaults, snapshot, fetched, now),
      t.deposits,
      t.history + DriftRecords(snapshot, fetched, now),
      t.recommendations + CycleRecommendations(t.vaults, t.deposits, snapshot, fetched, now))
  }

  /** `parseFloat(x.toFixed(2))`, on exact reals: round half up to two decimals. */
  function RoundCents(x: real): (r: real)
    ensures x - 0.005 < r <= x + 0.005
    ensures x >= 0.1 ==> r >= 0.1
  {
    ((x * 100.0 + 0.5).Floor as real) / 100.0
  }

  /**
   * The simulated rate feed for one `Math.random()` draw: the stored rate
   * moved by up to a quarter point either way, raised to at least 0.1,
   * rounded to two decimals.
   */
  function FetchLatestApy(vault: Vault, random: real): (apy: real)
    requires 0.0 <= random < 1.0
    ensures apy >= 0.1
    ensures Max(0.1, vault.currentApy - 0.25) - 0.005 < apy <= Max(0.1, vault.currentApy + 0.25) + 0.005
  {
    var fluctuation := (random - 0.5) * 0.5;
    RoundCents(Max(0.1, vault.currentApy + fluctuation))
  }

  /** One valid `Math.random()` draw per vault of a snapshot of `n` vaults. */
  predicate Draws(randoms: seq<real>, n: nat) {
    |randoms| == n && forall k :: 0 <= k < |randoms| ==> 0.0 <= randoms[k] < 1.0
  }

  /** The rates fetched for a snapshot, one draw each. */
  function FetchAll(snapshot: seq<Vault>, randoms: seq<real>): (fetched: seq<real>)
    requires Draws(randoms, |snapshot|)
    ensures |fetched| == |snapshot|
    ensures forall k {:trigger fetched[k]} :: 0 <= k < |snapshot| ==> fetched[k] == FetchLatestApy(snapshot[k], randoms[k])
    ensures forall k {:trigger fetched[k]} :: 0 <= k < |snapshot| ==>
      && fetched[k] >= 0.1
      && Max(0.1, snapshot[k].currentApy - 0.25) - 0.005 < fetched[k] <= Max(0.1, snapshot[k].currentApy + 0.25) + 0.005
  {
    seq(|snapshot|, k requires 0 <= k < |snapshot| => FetchLatestApy(snapshot[k], randoms[k]))
  }

  /** `recorded_at` ascending is the same as this rank descending. */
  function Earliness(r: YieldRecord): real { -(r.recordedAt as real) }

  /** A JavaScript default argument: the given value, or the default when it is omitted. */
  function DaysOr(days: Option<int>, default: int): int {
    if days.Some? then days.value else default
  }

  /** The start of a window of `days` days ending at `now`, in milliseconds. */
  function MsWindowStart(now: int, days: int): int { now - days * MsPerDay }

  /** The records of one vault at or after `since`, in log order. */
  function RecordsSince(history: seq<YieldRecord>, vaultId: string, since: int): (r: seq<YieldRecord>)
    ensures forall x {:trigger x in r} :: x in r <==> x in history && x.vaultId == vaultId && x.recordedAt >= since
    ensures forall x {:trigger multiset(r)[x]} ::
      multiset(r)[x] == if x.vaultId == vaultId && x.recordedAt >= since then multiset(history)[x] else 0
  {
    if history == [] then []
    else
      assert history == [history[0]] + history[1..];
      assert multiset(history) == multiset{history[0]} + multiset(history[1..]);
      (if history[0].vaultId == vaultId && history[0].recordedAt >= since then [history[0]] else [])
        + RecordsSince(history[1..], vaultId, since)
  }

  /** The sum `reduce((acc, record) => acc + record.apy, 0)`, folded from the left. */
  function SumApy(records: seq<YieldRecord>): real {
    if records == [] then 0.0 else SumApy(records[..|records| - 1]) + records[|records| - 1].apy
  }

  /** The mean rate of a window, 0 for an empty window. */
  function MeanApy(records: seq<YieldRecord>): (mean: real)
    ensures |records| == 0 ==> mean == 0.0
    ensures |records| > 0 ==> mean * (|records| as real) == SumApy(records)
  {
    if |records| == 0 then 0.0 else SumApy(records) / (|records| as real)
  }

  /**
   * The records of one vault within the last `days` days, oldest first;
   * records with the same time keep their log order.
   */
  function ApyHistory(history: seq<YieldRecord>, vaultId: string, days: int, now: int): (r: seq<YieldRecord>)
    ensures forall x {:trigger x in r} :: x in r <==> x in history && x.vaultId == vaultId && x.recordedAt >= MsWindowStart(now, days)
    ensures multiset(r) == multiset(RecordsSince(history, vaultId, MsWindowStart(now, days)))
    ensures forall x {:trigger multiset(r)[x]} ::
      multiset(r)[x] == if x.vaultId == vaultId && x.recordedAt >= MsWindowStart(now, days) then multiset(history)[x] else 0
    ensures |r| == |RecordsSince(history, vaultId, MsWindowStart(now, days))|
    ensures forall i, j :: 0 <= i < j < |r| ==> r[i].recordedAt <= r[j].recordedAt
    ensures forall k :: WithRank(r, Earliness, k) == WithRank(RecordsSince(history, vaultId, MsWindowStart(now, days)), Earliness, k)
  {
    var window := RecordsSince(history, vaultId, MsWindowStart(now, days));
    SortDescSorts(window, Earliness);
    SortDesc(window, Earliness)
  }

  /**
   * The mean rate of one vault over the last `days` days, 0 when there is
   * no record: the oldest-first order of the history query does not change
   * the mean of the window in log order.
   */
  function AverageApy(history: seq<YieldRecord>, vaultId: string, days: int, now: int): (mean: real)
    ensures mean == MeanApy(RecordsSince(history, vaultId, MsWindowStart(now, days)))
  {
    var window := RecordsSince(history, vaultId, MsWindowStart(now, days));
    var h := ApyHistory(history, vaultId, days, now);
    assert h == SortDesc(window, Earliness);
    SumSorted(window, Earliness);
    MeanApy(h)
  }

  class Monitor {
    var vaults: seq<Vault>
    var deposits: seq<Deposit>
    var history: seq<YieldRecord>
    var recommendations: seq<Recommendation>
    var intervalId: Option<Timer>

    function State(): Tables
      reads this
    {
      Tables(vaults, deposits, history, recommendations)
    }

    /** A monitor over the given tables, not yet started. */
    constructor (vaults: seq<Vault>, deposits: seq<Deposit>, history: seq<YieldRecord>)
      ensures State() == Tables(vaults, deposits, history, [])
      ensures intervalId == None
    {
      this.vaults := vaults;
      this.deposits := deposits;
      this.history := history;
      this.recommendations := [];
      this.intervalId := None;
    }

    /**
     * Start the hourly cycle: nothing happens while a timer is set;
     * otherwise one cycle runs now and the timer is set.
     */
    method StartMonitoring(now: int, randoms: seq<real>)
      requires intervalId.None? ==> Draws(randoms, |ActiveVaults(vaults)|)
      modifies this
      ensures old(intervalId).Some? ==> State() == old(State()) && intervalId == old(intervalId)
      ensures old(intervalId).None? ==>
        && State() == Cycle(old(State()), ActiveVaults(old(vaults)), FetchAll(ActiveVaults(old(vaults)), randoms), now)
        && intervalId == Some(Timer(UpdateIntervalMs))
    {
      if intervalId.Some? {
        return;
      }
      UpdateApys(now, randoms);
      intervalId := Some(Timer(UpdateIntervalMs));
    }

    /** Clear the timer, if any; the tables are untouched. */
    method StopMonitoring()
      modifies this`intervalId
      ensures intervalId == None
      ensures State() == old(State())
    {
      if intervalId.Some? {
        intervalId := None;
      }
    }

    /** The timer firing: a cycle runs only while the timer is set. */
    method Tick(now: int, randoms: seq<real>)
      requires intervalId.Some? ==> Draws(randoms, |ActiveVaults(vaults)|)
      modifies this`vaults, this`history, this`recommendations
      ensures old(intervalId).None? ==> State() == old(State())
      ensures old(intervalId).Some? ==>
        State() == Cycle(old(State()), ActiveVaults(old(vaults)), FetchAll(ActiveVaults(old(vaults)), randoms), now)
    {
      if intervalId.None? {
        return;
      }
      UpdateApys(now, randoms);
    }

    /**
     * One update cycle over the active vaults as they are now, with one
     * random draw per vault for the simulated feed.
     */
    method UpdateApys(now: int, randoms: seq<real>)
      requires Draws(randoms, |ActiveVaults(vaults)|)
      modifies this`vaults, this`history, this`recommendations
      ensures State() == Cycle(old(State()), ActiveVaults(old(vaults)), FetchAll(ActiveVaults(old(vaults)), randoms), now)
    {
      var t := RunCycle(State(), now, FetchAll(ActiveVaults(vaults), randoms));
      vaults, history, recommendations := t.vaults, t.history, t.recommendations;
    }

    /** Log a recommendation for each active deposit of `vault` whose best move gains more than a point. */
    method CheckRebalanceOpportunities(vault: Vault)
      modifies this`recommendations
      ensures recommendations == old(recommendations) + RebalanceCheck(vaults, deposits, vault)
    {
      var logged := RebalanceLog(vault, vaults, deposits);
      recommendations := recommendations + logged;
    }

    /**
     * `getAPYHistory(vaultId, days)` over the monitor's history table; an
     * omitted `days` is the default of 30.
     */
    function GetApyHistory(vaultId: string, days: Option<int>, now: int): (r: seq<YieldRecord>)
      reads this
      ensures var start := MsWindowStart(now, DaysOr(days, DefaultHistoryDays));
        && (forall x {:trigger multiset(r)[x]} ::
              multiset(r)[x] == if x.vaultId == vaultId && x.recordedAt >= start then multiset(history)[x] else 0)
        && (forall i, j :: 0 <= i < j < |r| ==> r[i].recordedAt <= r[j].recordedAt)
    {
      ApyHistory(history, vaultId, DaysOr(days, DefaultHistoryDays), now)
    }

    /**
     * `getAverageAPY(vaultId, days)` over the monitor's history table; an
     * omitted `days` is the default of 7.
     */
    function GetAverageApy(vaultId: string, days: Option<int>, now: int): (mean: real)
      reads this
      ensures mean == MeanApy(RecordsSince(history, vaultId, MsWindowStart(now, DaysOr(days, DefaultAverageDays))))
    {
      AverageApy(history, vaultId, DaysOr(days, DefaultAverageDays), now)
    }
  }

  /**
   * The loop of `updateAPYs` over one copy of the tables: for each active
   * vault of the snapshot, take its fetched rate, write it and record it
   * when it drifted, then check the vault's deposits against the table as
   * written.
   */
  method RunCycle(t: Tables, now: int, fetched: seq<real>) returns (r: Tables)
    requires |fetched| == |ActiveVaults(t.vaults)|
    ensures r == Cycle(t, ActiveVaults(t.vaults), fetched, now)
  {
    var snapshot := ActiveVaults(t.vaults);
    r := t;
    for i := 0 to |snapshot|
      invariant r == Cycle(t, snapshot[..i], fetched[..i], now)
    {
      r := CycleStep(t, snapshot, fetched, now, i, r);
    }
    assert snapshot[..|snapshot|] == snapshot;
    assert fetched[..|snapshot|] == fetched;
  }

  /**
   * One pass of the loop of `updateAPYs`: take the vault's fetched rate,
   * write it and record it when it drifted, then check the vault's deposits
   * against the table as written.
   */
  method CycleStep(t: Tables, snapshot: seq<Vault>, fetched: seq<real>, now: int, i: nat, acc: Tables)
    returns (r: Tables)
    requires |fetched| == |snapshot| && i < |snapshot|
    requires acc == Cycle(t, snapshot[..i], fetched[..i], now)
    ensures r == Cycle(t, snapshot[..i + 1], fetched[..i + 1], now)
  {
    var vault := snapshot[i];
    var newApy := fetched[i];
    var vaults, history := acc.vaults, acc.history;
    VaultsStep(t.vaults, snapshot, fetched, now, i);
    HistoryStep(snapshot, fetched, now, i);
    if Abs(newApy - vault.currentApy) > DriftThreshold {
      vaults := WithApy(vaults, vault.id, newApy, now);
      history := history + [YieldRecord(vault.id, newApy, vault.tvl, now)];
    }
    assert vaults == CycleVaults(t.vaults, snapshot[..i + 1], fetched[..i + 1], now);
    assert history == t.history + DriftRecords(snapshot[..i + 1], fetched[..i + 1], now);
    var logged := RebalanceLog(vault, vaults, t.deposits);
    RecommendationsStep(t.vaults, t.deposits, snapshot, fetched, now, i, vaults);
    AppendAssoc(t.recommendations, CycleRecommendations(t.vaults, t.deposits, snapshot[..i], fetched[..i], now), logged);
    r := Tables(vaults, t.deposits, history, acc.recommendations + logged);
  }

  lemma AppendAssoc<T>(a: seq<T>, b: seq<T>, c: seq<T>)
    ensures (a + b) + c == a + (b + c)
  {
  }

  /** One pass of the loop of `RunCycle` extends the vault table as `CycleVaults` says. */
  lemma VaultsStep(vaults: seq<Vault>, snapshot: seq<Vault>, fetched: seq<real>, now: int, i: nat)
    requires |fetched| == |snapshot| && i < |snapshot|
    ensures CycleVaults(vaults, snapshot[..i + 1], fetched[..i + 1], now)
         == VaultStep(CycleVaults(vaults, snapshot[..i], fetched[..i], now), snapshot[i], fetched[i], now)
  {
    assert snapshot[..i + 1][..i] == snapshot[..i];
    assert fetched[..i + 1][..i] == fetched[..i];
  }

  /** One pass of the loop of `RunCycle` extends the history as `DriftRecords` says. */
  lemma HistoryStep(snapshot: seq<Vault>, fetched: seq<real>, now: int, i: nat)
    requires |fetched| == |snapshot| && i < |snapshot|
    ensures DriftRecords(snapshot[..i + 1], fetched[..i + 1], now)
         == DriftRecords(snapshot[..i], fetched[..i], now)
            + if Drifted(snapshot[i].currentApy, fetched[i])
              then [YieldRecord(snapshot[i].id, fetched[i], snapshot[i].tvl, now)]
              else []
  {
    assert snapshot[..i + 1][..i] == snapshot[..i];
    assert fetched[..i + 1][..i] == fetched[..i];
  }

  /** One pass of the loop of `RunCycle` extends the log as `CycleRecommendations` says. */
  lemma RecommendationsStep(vaults: seq<Vault>, deposits: seq<Deposit>, snapshot: seq<Vault>, fetched: seq<real>, now: int,
                            i: nat, written: seq<Vault>)
    requires |fetched| == |snapshot| && i < |snapshot|
    requires written == CycleVaults(vaults, snapshot[..i + 1], fetched[..i + 1], now)
    ensures CycleRecommendations(vaults, deposits, snapshot[..i + 1], fetched[..i + 1], now)
         == CycleRecommendations(vaults, deposits, snapshot[..i], fetched[..i], now)
            + RebalanceCheck(written, deposits, snapshot[i])
  {
    assert snapshot[..i + 1][..i] == snapshot[..i];
    assert fetched[..i + 1][..i] == fetched[..i];
  }

  /** The loop of `checkRebalanceOpportunities` over one copy of the vault and deposit tables. */
  method RebalanceLog(vault: Vault, vaults: seq<Vault>, deposits: seq<Deposit>) returns (logged: seq<Recommendation>)
    ensures logged == RebalanceCheck(vaults, deposits, vault)
  {
    var vaultDeposits := ActiveDepositsOf(deposits, vault.id);
    logged := [];
    if |vaultDeposits| == 0 {
      return;
    }
    var allVaults := ActiveVaults(vaults);
    for i := 0 to |vaultDeposits|
      invariant logged == RebalanceRecommendations(vault, allVaults, vaultDeposits[..i])
    {
      assert vaultDeposits[..i + 1][..i] == vaultDeposits[..i];
      var deposit := vaultDeposits[i];
      var opportunities := AnalyzeYieldOpportunities(Some(vault), allVaults, deposit.convertedAmount);
      if |opportunities| > 0 && opportunities[0].apyDifference > RebalanceThreshold {
        logged := logged + [Recommendation(deposit.id, vault, opportunities[0].suggestedVault)];
      }
    }
    assert vaultDeposits[..|vaultDeposits|] == vaultDeposits;
  }

  // ---------------------------------------------------------------------
  // Properties of the cycle
  // ---------------------------------------------------------------------

  /** A record is appended for a snapshot vault exactly when its fetched rate drifted. */
  lemma {:induction false} DriftRecordsAreDrifts(snapshot: seq<Vault>, fetched: seq<real>, now: int, r: YieldRecord)
    requires |fetched| == |snapshot|
    ensures r in DriftRecords(snapshot, fetched, now)
        <==> exists i :: 0 <= i < |snapshot| && Drifted(snapshot[i].currentApy, fetched[i])
                      && r == YieldRecord(snapshot[i].id, fetched[i], snapshot[i].tvl, now)
  {
    if |snapshot| > 0 {
      var n := |snapshot| - 1;
      DriftRecordsAreDrifts(snapshot[..n], fetched[..n], now, r);
      if r in DriftRecords(snapshot[..n], fetched[..n], now) {
        var i :| 0 <= i < n && Drifted(snapshot[..n][i].currentApy, fetched[..n][i])
                 && r == YieldRecord(snapshot[..n][i].id, fetched[..n][i], snapshot[..n][i].tvl, now);
        assert snapshot[i] == snapshot[..n][i] && fetched[i] == fetched[..n][i];
      }
      if exists i :: 0 <= i < |snapshot| && Drifted(snapshot[i].currentApy, fetched[i])
                  && r == YieldRecord(snapshot[i].id, fetched[i], snapshot[i].tvl, now) {
        var i :| 0 <= i < |snapshot| && Drifted(snapshot[i].currentApy, fetched[i])
                 && r == YieldRecord(snapshot[i].id, fetched[i], snapshot[i].tvl, now);
        if i < n {
          assert snapshot[..n][i] == snapshot[i] && fetched[..n][i] == fetched[i];
        }
      }
    }
  }

  /** A cycle rewrites no rate and appends no history when every fetched rate equals the stored one. */
  lemma {:induction false} UnchangedSourceWritesNothing(vaults: seq<Vault>, snapshot: seq<Vault>, fetched: seq<real>, now: int)
    requires |fetched| == |snapshot|
    requires forall i :: 0 <= i < |snapshot| ==> fetched[i] == snapshot[i].currentApy
    ensures DriftRecords(snapshot, fetched, now) == []
    ensures CycleVaults(vaults, snapshot, fetched, now) == vaults
  {
    if |snapshot| > 0 {
      var n := |snapshot| - 1;
      UnchangedSourceWritesNothing(vaults, snapshot[..n], fetched[..n], now);
      assert !Drifted(snapshot[n].currentApy, fetched[n]);
    }
  }

  /** A cycle changes only the rate and the update time of vault rows, never their number or order. */
  lemma {:induction false} CycleChangesOnlyRates(vaults: seq<Vault>, snapshot: seq<Vault>, fetched: seq<real>, now: int)
    requires |fetched| == |snapshot|
    ensures |CycleVaults(vaults, snapshot, fetched, now)| == |vaults|
    ensures forall i :: 0 <= i < |vaults| ==>
      var row := CycleVaults(vaults, snapshot, fetched, now)[i];
      row == vaults[i].(currentApy := row.currentApy, updatedAt := row.updatedAt)
  {
    if |snapshot| > 0 {
      var n := |snapshot| - 1;
      CycleChangesOnlyRates(vaults, snapshot[..n], fetched[..n], now);
    }
  }

  /** A row whose id is not in the snapshot keeps its rate and update time through a cycle. */
  lemma {:induction false} CycleLeavesOtherVaults(vaults: seq<Vault>, snapshot: seq<Vault>, fetched: seq<real>, now: int, i: nat)
    requires |fetched| == |snapshot|
    requires i < |vaults|
    requires forall k :: 0 <= k < |snapshot| ==> snapshot[k].id != vaults[i].id
    ensures |CycleVaults(vaults, snapshot, fetched, now)| == |vaults|
    ensures CycleVaults(vaults, snapshot, fetched, now)[i] == vaults[i]
  {
    if |snapshot| > 0 {
      var n := |snapshot| - 1;
      CycleLeavesOtherVaults(vaults, snapshot[..n], fetched[..n], now, i);
      assert snapshot[n].id != vaults[i].id;
    }
  }

  /** No two vaults of the snapshot share an id (`id` is the key of the vault table). */
  ghost predicate DistinctIds(snapshot: seq<Vault>) {
    forall a, b :: 0 <= a < b < |snapshot| ==> snapshot[a].id != snapshot[b].id
  }

  /**
   * The write half of the drift rule: the row of snapshot vault `k` takes
   * the fetched rate and the cycle time exactly when the rate moved by more
   * than the threshold from the snapshot's, and is left as it was otherwise.
   */
  lemma {:induction false} CycleWritesDrifted(vaults: seq<Vault>, snapshot: seq<Vault>, fetched: seq<real>, now: int,
                                              i: nat, k: nat)
    requires |fetched| == |snapshot| && DistinctIds(snapshot)
    requires i < |vaults| && k < |snapshot| && snapshot[k].id == vaults[i].id
    ensures |CycleVaults(vaults, snapshot, fetched, now)| == |vaults|
    ensures CycleVaults(vaults, snapshot, fetched, now)[i]
         == if Drifted(snapshot[k].currentApy, fetched[k])
            then vaults[i].(currentApy := fetched[k], updatedAt := now)
            else vaults[i]
  {
    var n := |snapshot| - 1;
    CycleChangesOnlyRates(vaults, snapshot[..n], fetched[..n], now);
    if k == n {
      forall j | 0 <= j < n ensures snapshot[..n][j].id != vaults[i].id {
        assert snapshot[..n][j] == snapshot[j];
      }
      CycleLeavesOtherVaults(vaults, snapshot[..n], fetched[..n], now, i);
    } else {
      assert snapshot[..n][k] == snapshot[k] && fetched[..n][k] == fetched[k];
      assert DistinctIds(snapshot[..n]);
      CycleWritesDrifted(vaults, snapshot[..n], fetched[..n], now, i, k);
      assert snapshot[n].id != vaults[i].id;
    }
  }

  /**
   * The test of `checkRebalanceOpportunities` for one deposit: its list of
   * opportunities is non-empty and the first beats the vault by more than a
   * point.
   */
  predicate WorthMoving(vault: Vault, allVaults: seq<Vault>, deposit: Deposit) {
    var opportunities := Opportunities(Some(vault), allVaults, deposit.convertedAmount);
    |opportunities| > 0 && opportunities[0].apyDifference > RebalanceThreshold
  }

  /** The vault a deposit that passes the test is moved to: its top opportunity's. */
  function TopTarget(vault: Vault, allVaults: seq<Vault>, deposit: Deposit): Vault
    requires WorthMoving(vault, allVaults, deposit)
  {
    Opportunities(Some(vault), allVaults, deposit.convertedAmount)[0].suggestedVault
  }

  /**
   * Every logged recommendation comes from a deposit that passes the test
   * and moves it to that deposit's top opportunity, a different listed
   * vault whose rate is more than a point higher than the source snapshot's.
   */
  lemma {:induction false} RecommendationsAreWorthwhile(vault: Vault, allVaults: seq<Vault>, deposits: seq<Deposit>, r: Recommendation)
    requires r in RebalanceRecommendations(vault, allVaults, deposits)
    ensures r.fromVault == vault
    ensures exists k {:trigger deposits[k]} :: 0 <= k < |deposits| && WorthMoving(vault, allVaults, deposits[k])
              && r == Recommendation(deposits[k].id, vault, TopTarget(vault, allVaults, deposits[k]))
    ensures r.toVault in allVaults && r.toVault.id != vault.id
    ensures r.toVault.currentApy - vault.currentApy > RebalanceThreshold
  {
    var n := |deposits| - 1;
    if r in RebalanceRecommendations(vault, allVaults, deposits[..n]) {
      RecommendationsAreWorthwhile(vault, allVaults, deposits[..n], r);
      var k :| 0 <= k < n && WorthMoving(vault, allVaults, deposits[..n][k])
               && r == Recommendation(deposits[..n][k].id, vault, TopTarget(vault, allVaults, deposits[..n][k]));
      assert deposits[..n][k] == deposits[k];
    } else {
      var opportunities := Opportunities(Some(vault), allVaults, deposits[n].convertedAmount);
      assert opportunities[0] in opportunities;
      OpportunityFields(vault, allVaults, deposits[n].convertedAmount, opportunities[0]);
      assert deposits[n] in deposits;
    }
  }

  /**
   * Conversely, a deposit whose best opportunity beats the current rate by
   * more than a point gets a recommendation to that opportunity's vault.
   */
  lemma {:induction false} WorthwhileDepositsAreRecommended(vault: Vault, allVaults: seq<Vault>, deposits: seq<Deposit>, k: nat)
    requires k < |deposits|
    requires |Opportunities(Some(vault), allVaults, deposits[k].convertedAmount)| > 0
    requires Opportunities(Some(vault), allVaults, deposits[k].convertedAmount)[0].apyDifference > RebalanceThreshold
    ensures Recommendation(deposits[k].id, vault, Opportunities(Some(vault), allVaults, deposits[k].convertedAmount)[0].suggestedVault)
         in RebalanceRecommendations(vault, allVaults, deposits)
  {
    var n := |deposits| - 1;
    if k < n {
      WorthwhileDepositsAreRecommended(vault, allVaults, deposits[..n], k);
      assert deposits[..n][k] == deposits[k];
    }
  }

  /** A vault with no active deposit logs nothing. */
  lemma NoDepositsNoRecommendation(vaults: seq<Vault>, deposits: seq<Deposit>, vault: Vault)
    requires forall d :: d in deposits ==> d.vaultId != Some(vault.id) || d.status != "active"
    ensures RebalanceCheck(vaults, deposits, vault) == []
  {
    NoActiveDeposits(deposits, vault.id);
  }

  lemma {:induction false} NoActiveDeposits(deposits: seq<Deposit>, vaultId: string)
    requires forall d :: d in deposits ==> d.vaultId != Some(vaultId) || d.status != "active"
    ensures ActiveDepositsOf(deposits, vaultId) == []
  {
    if deposits != [] {
      assert deposits[0] in deposits;
      assert forall d :: d in deposits[1..] ==> d in deposits;
      NoActiveDeposits(deposits[1..], vaultId);
    }
  }

  /** No two deposits share an id (`id` is the key of the deposit table). */
  ghost predicate DistinctDepositIds(deposits: seq<Deposit>) {
    forall a, b :: 0 <= a < b < |deposits| ==> deposits[a].id != deposits[b].id
  }

  /**
   * Among deposits with distinct ids, a deposit gets a recommendation
   * exactly when it passes the test, and then only the one to its top
   * opportunity.
   */
  lemma RecommendedIffWorthMoving(vault: Vault, allVaults: seq<Vault>, deposits: seq<Deposit>, k: nat)
    requires k < |deposits| && DistinctDepositIds(deposits)
    ensures (exists r {:trigger r in RebalanceRecommendations(vault, allVaults, deposits)} ::
               r in RebalanceRecommendations(vault, allVaults, deposits) && r.depositId == deposits[k].id)
        <==> WorthMoving(vault, allVaults, deposits[k])
    ensures forall r {:trigger r in RebalanceRecommendations(vault, allVaults, deposits)} ::
              r in RebalanceRecommendations(vault, allVaults, deposits) && r.depositId == deposits[k].id
              ==> r == Recommendation(deposits[k].id, vault, TopTarget(vault, allVaults, deposits[k]))
  {
    forall r | r in RebalanceRecommendations(vault, allVaults, deposits) && r.depositId == deposits[k].id
      ensures WorthMoving(vault, allVaults, deposits[k])
      ensures r == Recommendation(deposits[k].id, vault, TopTarget(vault, allVaults, deposits[k]))
    {
      RecommendationsAreWorthwhile(vault, allVaults, deposits, r);
      var j :| 0 <= j < |deposits| && WorthMoving(vault, allVaults, deposits[j])
               && r == Recommendation(deposits[j].id, vault, TopTarget(vault, allVaults, deposits[j]));
      assert j == k;
    }
    if WorthMoving(vault, allVaults, deposits[k]) {
      WorthwhileDepositsAreRecommended(vault, allVaults, deposits, k);
    }
  }

  /**
   * A deposit whose top opportunity is listed (more than half a point) but
   * not worth a move (at most one point) gets no recommendation, wherever it
   * stands among deposits with distinct ids.
   */
  lemma ListedButNotWorthMoving(vault: Vault, allVaults: seq<Vault>, deposits: seq<Deposit>, k: nat)
    requires k < |deposits| && DistinctDepositIds(deposits)
    requires Opportunities(Some(vault), allVaults, deposits[k].convertedAmount) != []
    requires Opportunities(Some(vault), allVaults, deposits[k].convertedAmount)[0].apyDifference <= RebalanceThreshold
    ensures forall r {:trigger r in RebalanceRecommendations(vault, allVaults, deposits)} ::
              r in RebalanceRecommendations(vault, allVaults, deposits) ==> r.depositId != deposits[k].id
  {
    RecommendedIffWorthMoving(vault, allVaults, deposits, k);
  }

  /**
   * `r` is logged by the check of snapshot vault `k`, run against the table
   * as it stands after the writes for snapshot vaults 0 to `k`, with the
   * snapshot's own (pre-update) vault as the baseline.
   */
  ghost predicate LoggedByCheck(vaults: seq<Vault>, deposits: seq<Deposit>, snapshot: seq<Vault>, fetched: seq<real>,
                                now: int, k: int, r: Recommendation)
    requires |fetched| == |snapshot| && 0 <= k < |snapshot|
  {
    r in RebalanceCheck(CycleVaults(vaults, snapshot[..k + 1], fetched[..k + 1], now), deposits, snapshot[k])
  }

  /** Whether the check of vault `k` logs `r` depends only on the snapshot up to `k`. */
  lemma LoggedByCheckOfPrefix(vaults: seq<Vault>, deposits: seq<Deposit>, snapshot: seq<Vault>, fetched: seq<real>,
                              now: int, n: nat, k: nat, r: Recommendation)
    requires |fetched| == |snapshot| && k < n <= |snapshot|
    ensures LoggedByCheck(vaults, deposits, snapshot[..n], fetched[..n], now, k, r)
        == LoggedByCheck(vaults, deposits, snapshot, fetched, now, k, r)
  {
    assert snapshot[..n][..k + 1] == snapshot[..k + 1] && fetched[..n][..k + 1] == fetched[..k + 1];
    assert snapshot[..n][k] == snapshot[k];
  }

  /** A cycle's log is the log of the cycle over all but the last snapshot vault, then that vault's check. */
  lemma CycleRecommendationsSplit(vaults: seq<Vault>, deposits: seq<Deposit>, snapshot: seq<Vault>,
                                  fetched: seq<real>, now: int, r: Recommendation)
    requires |fetched| == |snapshot| > 0
    ensures r in CycleRecommendations(vaults, deposits, snapshot, fetched, now)
        <==> r in CycleRecommendations(vaults, deposits, snapshot[..|snapshot| - 1], fetched[..|snapshot| - 1], now)
             || LoggedByCheck(vaults, deposits, snapshot, fetched, now, |snapshot| - 1, r)
  {
    assert snapshot[..|snapshot|] == snapshot && fetched[..|snapshot|] == fetched;
  }

  /**
   * The checks a cycle logs: a recommendation is logged iff the check of
   * some snapshot vault logs it. Every snapshot vault is checked, drifted or
   * not.
   */
  lemma {:induction false} CycleRecommendationsAreChecks(vaults: seq<Vault>, deposits: seq<Deposit>, snapshot: seq<Vault>,
                                                         fetched: seq<real>, now: int, r: Recommendation)
    requires |fetched| == |snapshot|
    ensures r in CycleRecommendations(vaults, deposits, snapshot, fetched, now)
        <==> exists k {:trigger LoggedByCheck(vaults, deposits, snapshot, fetched, now, k, r)} ::
               0 <= k < |snapshot| && LoggedByCheck(vaults, deposits, snapshot, fetched, now, k, r)
  {
    if |snapshot| > 0 {
      var n := |snapshot| - 1;
      CycleRecommendationsAreChecks(vaults, deposits, snapshot[..n], fetched[..n], now, r);
      CycleRecommendationsSplit(vaults, deposits, snapshot, fetched, now, r);
      forall k | 0 <= k < n
        ensures LoggedByCheck(vaults, deposits, snapshot[..n], fetched[..n], now, k, r)
             == LoggedByCheck(vaults, deposits, snapshot, fetched, now, k, r)
      {
        LoggedByCheckOfPrefix(vaults, deposits, snapshot, fetched, now, n, k, r);
      }
      if r in CycleRecommendations(vaults, deposits, snapshot, fetched, now) {
        if r in CycleRecommendations(vaults, deposits, snapshot[..n], fetched[..n], now) {
          var k :| 0 <= k < n && LoggedByCheck(vaults, deposits, snapshot[..n], fetched[..n], now, k, r);
          assert LoggedByCheck(vaults, deposits, snapshot, fetched, now, k, r);
        } else {
          assert LoggedByCheck(vaults, deposits, snapshot, fetched, now, n, r);
        }
      } else {
        forall k | 0 <= k < |snapshot| ensures !LoggedByCheck(vaults, deposits, snapshot, fetched, now, k, r) {
          if k < n {
            assert !LoggedByCheck(vaults, deposits, snapshot[..n], fetched[..n], now, k, r);
          } else {
            assert k == n;
          }
        }
      }
    }
  }

  /**
   * Every recommendation of a cycle moves a deposit out of a snapshot vault
   * to a vault whose rate is more than a point above that vault's rate as
   * the snapshot read it, before the cycle's writes.
   */
  lemma CycleRecommendationsUseSnapshotBaseline(vaults: seq<Vault>, deposits: seq<Deposit>, snapshot: seq<Vault>,
                                                fetched: seq<real>, now: int, r: Recommendation)
    requires |fetched| == |snapshot|
    requires r in CycleRecommendations(vaults, deposits, snapshot, fetched, now)
    ensures exists k {:trigger snapshot[k]} :: 0 <= k < |snapshot| && r.fromVault == snapshot[k]
              && r.toVault.currentApy - snapshot[k].currentApy > RebalanceThreshold
  {
    CycleRecommendationsAreChecks(vaults, deposits, snapshot, fetched, now, r);
    var k :| 0 <= k < |snapshot| && LoggedByCheck(vaults, deposits, snapshot, fetched, now, k, r);
    var written := CycleVaults(vaults, snapshot[..k + 1], fetched[..k + 1], now);
    RecommendationsAreWorthwhile(snapshot[k], ActiveVaults(written), ActiveDepositsOf(deposits, snapshot[k].id), r);
  }

  // ---------------------------------------------------------------------
  // Properties of the history queries
  // ---------------------------------------------------------------------

  lemma {:induction false} SumCons(x: YieldRecord, s: seq<YieldRecord>)
    ensures SumApy([x] + s) == x.apy + SumApy(s)
  {
    if s != [] {
      var n := |s| - 1;
      assert ([x] + s)[..|s|] == [x] + s[..n];
      SumCons(x, s[..n]);
    }
  }

  lemma {:induction false} SumInsert(x: YieldRecord, s: seq<YieldRecord>, rank: YieldRecord -> real)
    ensures SumApy(Insert(x, s, rank)) == x.apy + SumApy(s)
  {
    if s == [] || rank(x) >= rank(s[0]) {
      SumCons(x, s);
    } else {
      SumInsert(x, s[1..], rank);
      SumCons(s[0], Insert(x, s[1..], rank));
      SumCons(s[0], s[1..]);
      assert s == [s[0]] + s[1..];
    }
  }

  /** Sorting a window does not change its sum. */
  lemma {:induction false} SumSorted(s: seq<YieldRecord>, rank: YieldRecord -> real)
    ensures SumApy(SortDesc(s, rank)) == SumApy(s)
  {
    if s != [] {
      SumSorted(s[1..], rank);
      SumInsert(s[0], SortDesc(s[1..], rank), rank);
      SumCons(s[0], s[1..]);
      assert s == [s[0]] + s[1..];
    }
  }

  /** Every mean lies between the least and the greatest rate of its window. */
  lemma MeanWithinBounds(records: seq<YieldRecord>, lo: real, hi: real)
    requires |records| > 0
    requires forall r :: r in records ==> lo <= r.apy <= hi
    ensures lo <= MeanApy(records) <= hi
  {
    var n := |records| as real;
    forall i | 0 <= i < |records| ensures lo <= records[i].apy <= hi {
      assert records[i] in records;
    }
    SumWithinBounds(records, lo, hi);
    var m := MeanApy(records);
    assert m * n == SumApy(records);
    assert (m - lo) * n >= 0.0;
    assert (hi - m) * n >= 0.0;
  }

  lemma {:induction false} SumWithinBounds(records: seq<YieldRecord>, lo: real, hi: real)
    requires forall i :: 0 <= i < |records| ==> lo <= records[i].apy <= hi
    ensures lo * (|records| as real) <= SumApy(records) <= hi * (|records| as real)
  {
    if records != [] {
      var n := |records| - 1;
      SumWithinBounds(records[..n], lo, hi);
      Distribute(lo, n as real);
      Distribute(hi, n as real);
    }
  }

  lemma Distribute(c: real, k: real)
    ensures c * (k + 1.0) == c * k + c
  {
  }
}
