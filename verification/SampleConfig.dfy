/**
 A store of backups in which nothing fails and whose IDs count upward: what the configuration
 transactions ask of theirs can be met, and there their outcome is decided by the configurations alone.
 */
module SampleConfig {
  import opened Text
  import opened ConfigBackup
  import opened ConfigTransaction

  // ---- IDs that count upward ---------------------------------------------------------------

  function Digit(k: nat): char
    requires k < 16
  {
    if k < 10 then '0' + k as char else 'a' + (k - 10) as char
  }

  function Hex(n: nat, digits: nat): string {
    if digits == 0 then "" else Hex(n / 16, digits - 1) + [Digit(n % 16)]
  }

  function Pow16(n: nat): nat {
    if n == 0 then 1 else 16 * Pow16(n - 1)
  }

  const ID_DIGITS: nat := 32

  lemma {:induction false} HexIsHex(n: nat, digits: nat)
    ensures |Hex(n, digits)| == digits
    ensures forall i :: 0 <= i < digits ==> 'a' <= Hex(n, digits)[i] <= 'f' || '0' <= Hex(n, digits)[i] <= '9'
  {
    if digits > 0 {
      HexIsHex(n / 16, digits - 1);
    }
  }

  lemma {:induction false} HexInjective(m: nat, n: nat, digits: nat)
    requires m < Pow16(digits) && n < Pow16(digits) && Hex(m, digits) == Hex(n, digits)
    ensures m == n
  {
    if digits > 0 {
      var a, b := Hex(m, digits), Hex(n, digits);
      HexIsHex(m / 16, digits - 1);
      HexIsHex(n / 16, digits - 1);
      assert a[..digits - 1] == Hex(m / 16, digits - 1) && b[..digits - 1] == Hex(n / 16, digits - 1);
      assert a[digits - 1] == Digit(m % 16) && b[digits - 1] == Digit(n % 16);
      HexInjective(m / 16, n / 16, digits - 1);
    }
  }


  function SampleEnv(verdict: Bytes -> bool): Env {
    Env(1024, data => "", (k: nat) => Hex(k, ID_DIGITS), k => false, (k, data) => verdict(data))
  }

  /** An empty store: all the IDs there are, 16^32 of them, are still to be had. */
  lemma SampleIsFresh(verdict: Bytes -> bool, active: Entry, horizon: nat)
    requires horizon <= Pow16(ID_DIGITS)
    ensures FreshIds(SampleEnv(verdict), Disk(active, map[], map[]), 0, horizon)
  {
    var env := SampleEnv(verdict);
    forall k | 0 <= k < horizon
      ensures IsId(env.newId(k))
    {
      HexIsHex(k, ID_DIGITS);
    }
    forall j, k | 0 <= j < k < horizon
      ensures env.newId(j) != env.newId(k)
    {
      if Hex(j, ID_DIGITS) == Hex(k, ID_DIGITS) {
        HexInjective(j, k, ID_DIGITS);
      }
    }
  }

  lemma RoomForTwo(digits: nat)
    requires digits >= 2
    ensures 2 * TRANSACTION_STEPS <= Pow16(digits)
  {
    assert Pow16(digits) == 16 * (16 * Pow16(digits - 2));
    PowIsPositive(digits - 2);
  }

  lemma {:induction false} PowIsPositive(n: nat)
    ensures Pow16(n) >= 1
  {
    if n > 0 {
      PowIsPositive(n - 1);
    }
  }

  // ---- Both transactions, one after the other ----------------------------------------------

  /** What the client is told and what is at the configuration path, by the decision alone. */
  predicate Settled(env: Env, verdict: Bytes -> bool, before: Entry, m: Mutation, r: Response, after: Entry) {
    match Decide(env, verdict, before, m)
    case Refuse => r.status == 422 && !r.rolledBack && after == before
    case Keep => r.status == 200 && after == m.entry(before)
    case PutBack => r.status == 422 && r.rolledBack && after == before
    case Stuck => r.status == 500 && after == m.entry(before)
  }

  lemma OutcomeSettles(
      env: Env, verdict: Bytes -> bool, before: Disk, after: Disk, m: Mutation, o: Outcome, r: Response)
    requires Meets(env, before, after, m, o) && Tells(r, o)
    requires DecisionOf(o) == Decide(env, verdict, before.active, m)
    ensures Settled(env, verdict, before.active, m, r, after.active)
  {
  }

  /** From any configuration, with any two mutations and any validator: both transactions can be called,
      one after the other, and each ends as its decision says. */
  method TwoTransactions(active: Entry, verdict: Bytes -> bool, change: Mutation, repair: Mutation)
    returns (first: Response, between: Entry, second: Response, last: Entry)
    ensures Settled(SampleEnv(verdict), verdict, active, change, first, between)
    ensures Settled(SampleEnv(verdict), verdict, between, repair, second, last)
  {
    var env, disk := SampleEnv(verdict), Disk(active, map[], map[]);
    RoomForTwo(ID_DIGITS);
    SampleIsFresh(verdict, active, 2 * TRANSACTION_STEPS);
    var backups := new Manager(env, disk, 2 * TRANSACTION_STEPS);
    assert Steady(env, verdict);
    ghost var o: Outcome;
    first, o := RunConfigMutation(backups, change, verdict);
    OutcomeSettles(env, verdict, disk, backups.View(), change, o, first);
    between := backups.active;
    ghost var middle := backups.View();
    second, o := RunRepairTransaction(backups, repair, verdict);
    OutcomeSettles(env, verdict, middle, backups.View(), repair, o, second);
    last := backups.active;
  }
}
