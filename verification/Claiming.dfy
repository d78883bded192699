/** Transactional claiming with leases (lib/jobs/claiming.js). */
module Claiming {
  import opened Wrappers
  import opened Sequences
  import opened Tables
  import opened JobService

  const LEASE_MS: int := 60000

  predicate Eligible(db: Db, now: int, i: nat)
  {
    && i < |db.items| && db.items[i].status.Queued? && db.items[i].nextAttemptAt <= now
    && db.items[i].job < |db.jobs|
    && (db.jobs[db.items[i].job].status.QUEUED? || db.jobs[db.items[i].job].status.RUNNING?)
  }

  /** ORDER BY next_attempt_at ASC, rowid ASC. */
  predicate Before(items: seq<Item>, i: nat, k: nat)
  {
    && i < |items| && k < |items|
    && (items[i].nextAttemptAt < items[k].nextAttemptAt
        || (items[i].nextAttemptAt == items[k].nextAttemptAt && i < k))
  }

  /** The claim query over the first `n` rows. */
  function FirstEligible(db: Db, now: int, n: nat): (r: Option<nat>)
    requires n <= |db.items|
    ensures r.Some? ==> r.value < n && Eligible(db, now, r.value)
    ensures r.Some? ==> forall k :: 0 <= k < n && Eligible(db, now, k) ==> k == r.value || Before(db.items, r.value, k)
    ensures r.None? ==> forall k :: 0 <= k < n ==> !Eligible(db, now, k)
  {
    if n == 0 then None
    else
      var best := FirstEligible(db, now, n - 1);
      if !Eligible(db, now, n - 1) then best
      else if best.Some? && Before(db.items, best.value, n - 1) then best
      else Some(n - 1)
  }

  function NextItem(db: Db, now: int): Option<nat>
  {
    FirstEligible(db, now, |db.items|)
  }

  function ClaimRow(db: Db, i: nat, who: string, now: int): Db
  {
    if i < |db.items| && db.items[i].status.Queued? then
      SetItem(db, i, db.items[i].(status := Claimed, claimedBy := Some(who), leaseExpiresAt := Some(now + LEASE_MS)))
    else db
  }

  predicate IsStale(it: Item, now: int)
  {
    && (it.status.Claimed? || it.status.Running?)
    && it.leaseExpiresAt.Some? && it.leaseExpiresAt.value < now
  }

  function Recovered(it: Item, now: int): Item
  {
    if IsStale(it, now) then Released(it).(status := Queued) else it
  }

  function RecoverRows(db: Db, now: int): Db
  {
    db.(items := seq(|db.items|, k requires 0 <= k < |db.items| => Recovered(db.items[k], now)))
  }

  /** BEGIN IMMEDIATE: select and update cannot be separated, so the conditional update always hits. */
  method ClaimNextItem(db: Database, who: string, now: int) returns (claimed: Option<nat>)
    modifies db
    ensures claimed == NextItem(old(db.Tables()), now)
    ensures claimed.None? ==> db.Tables() == old(db.Tables())
    ensures claimed.Some? ==> db.Tables() == ClaimRow(old(db.Tables()), claimed.value, who, now)
  {
    var row := NextItem(db.Tables(), now);
    if row.None? { return None; }
    var i, changes := row.value, 0;
    if db.items[i].status == Queued {
      db.items := db.items[i := db.items[i].(status := Claimed, claimedBy := Some(who),
                                             leaseExpiresAt := Some(now + LEASE_MS))];
      changes := 1;
    }
    if changes != 1 { return None; }
    return row;
  }

  method RecoverStaleClaims(db: Database, now: int) returns (changes: nat)
    modifies db
    ensures db.Tables() == RecoverRows(old(db.Tables()), now)
    ensures changes == Count(old(db.items), (it: Item) => IsStale(it, now))
  {
    changes := Count(db.items, (it: Item) => IsStale(it, now));
    db.items := seq(|db.items|, k requires 0 <= k < |db.items| reads db => Recovered(db.items[k], now));
  }
}
