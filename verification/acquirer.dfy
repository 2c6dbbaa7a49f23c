/**
 * The offline-sale timer of the acquirer. Offline sales are password
 * protected only once the timer has reached its expiry value; an offline
 * sale resets it, a settlement expires it, and a periodic tick advances it
 * while offline sales are enabled. The workflows, the password prompts and
 * the terminal configuration are not part of this model: what they answer
 * is given to each operation.
 */
module Acquirers {

  /** The value at which the timer has expired and an offline sale asks for a password. */
  const OFFLINE_SALE_TIMER_EXPIRY: nat := 30

  /** The timer after one tick: one more while offline sales are enabled, never past the expiry value. */
  function NextTimer(timer: nat, offlineSaleEnabled: bool): (t: nat)
    ensures timer <= OFFLINE_SALE_TIMER_EXPIRY ==> t <= OFFLINE_SALE_TIMER_EXPIRY
    ensures t == timer || (offlineSaleEnabled && t == timer + 1)
    ensures t == timer <==> !offlineSaleEnabled || timer >= OFFLINE_SALE_TIMER_EXPIRY
  {
    if offlineSaleEnabled && OFFLINE_SALE_TIMER_EXPIRY > timer then timer + 1 else timer
  }

  /** The timer after `k` ticks with offline sales enabled. */
  function Ticks(timer: nat, k: nat): nat
    decreases k
  {
    if k == 0 then timer else Ticks(NextTimer(timer, true), k - 1)
  }

  /** `k` ticks advance the timer by `k`, up to the expiry value. */
  lemma {:induction false} TicksSaturate(timer: nat, k: nat)
    requires timer <= OFFLINE_SALE_TIMER_EXPIRY
    ensures Ticks(timer, k) == if timer + k < OFFLINE_SALE_TIMER_EXPIRY then timer + k else OFFLINE_SALE_TIMER_EXPIRY
    decreases k
  {
    if k > 0 {
      TicksSaturate(NextTimer(timer, true), k - 1);
    }
  }

  /**
   * After an offline sale resets the timer, the next offline sales go
   * without a password until 29 ticks have passed, and ask for one from
   * then on.
   */
  lemma PasswordAgainAfterReset(k: nat)
    ensures Ticks(1, k) >= OFFLINE_SALE_TIMER_EXPIRY <==> k >= OFFLINE_SALE_TIMER_EXPIRY - 1
  {
    TicksSaturate(1, k);
  }

  /** An offline sale asks for the password exactly when the timer has expired. */
  predicate OfflineSaleNeedsPassword(timer: nat)
  {
    timer >= OFFLINE_SALE_TIMER_EXPIRY
  }

  /** The acquirer, reduced to its offline-sale timer. */
  class Acquirer {
    var offlineSaleTimer: nat

    /** The timer stays between 1 and its expiry value. */
    predicate Valid()
      reads this
    {
      1 <= offlineSaleTimer <= OFFLINE_SALE_TIMER_EXPIRY
    }

    /** A new acquirer's timer has expired, so its first offline sale asks for the password. */
    constructor()
      ensures offlineSaleTimer == OFFLINE_SALE_TIMER_EXPIRY
      ensures Valid()
    {
      offlineSaleTimer := OFFLINE_SALE_TIMER_EXPIRY;
    }

    /** One tick of the timer. */
    method IncrementOfflineSaleTimer(offlineSaleEnabled: bool)
      modifies this
      ensures offlineSaleTimer == NextTimer(old(offlineSaleTimer), offlineSaleEnabled)
      ensures old(Valid()) ==> Valid()
    {
      if offlineSaleEnabled {
        if OFFLINE_SALE_TIMER_EXPIRY > offlineSaleTimer {
          offlineSaleTimer := offlineSaleTimer + 1;
        }
      }
    }

    /** Restarts the timer at 1. */
    method ResetOfflineSaleTimer()
      modifies this
      ensures offlineSaleTimer == 1
      ensures Valid()
    {
      offlineSaleTimer := 1;
    }

    /**
     * An offline sale. With the timer expired it first asks for the
     * password and, refused, gives up leaving the timer as it was;
     * otherwise it runs the offline-sale workflow and resets the timer. It
     * always answers true.
     */
    method StartOfflineSale(passwordOk: bool) returns (r: bool)
      modifies this
      ensures r
      ensures if OfflineSaleNeedsPassword(old(offlineSaleTimer)) && !passwordOk
              then offlineSaleTimer == old(offlineSaleTimer)
              else offlineSaleTimer == 1
      ensures old(Valid()) ==> Valid()
    {
      if offlineSaleTimer >= OFFLINE_SALE_TIMER_EXPIRY {
        if !passwordOk {
          return true;
        }
      }
      ResetOfflineSaleTimer();
      return true;
    }

    /**
     * A settlement. Started at the terminal it asks for the settlement
     * password and, refused, gives up answering true; otherwise it settles
     * and expires the timer. Started by the POS it answers what the
     * settlement answers and leaves the timer as it was.
     */
    method StartSettlement(posTrigger: bool, passwordOk: bool, posResult: bool) returns (r: bool)
      modifies this
      ensures posTrigger ==> r == posResult && offlineSaleTimer == old(offlineSaleTimer)
      ensures !posTrigger ==> r
      ensures !posTrigger ==>
                offlineSaleTimer == (if passwordOk then OFFLINE_SALE_TIMER_EXPIRY else old(offlineSaleTimer))
      ensures old(Valid()) ==> Valid()
    {
      if !posTrigger {
        if !passwordOk {
          return true;
        }
      }
      if posTrigger {
        return posResult;
      }
      offlineSaleTimer := OFFLINE_SALE_TIMER_EXPIRY;
      return true;
    }

    /** A tip adjustment: refused without the password, run otherwise; the timer is not touched. */
    method StartTipAdjust(passwordOk: bool) returns (r: bool)
      ensures r <==> passwordOk
    {
      if !passwordOk {
        return false;
      }
      return true;
    }
  }
}
