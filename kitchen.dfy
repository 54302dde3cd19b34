/** The kitchen's new-order signal (`useKitchenNotification` in
    `src/hooks/useKitchenNotification.ts`): it remembers the last order count
    it saw and signals when the count goes up, except on the first look. */
module KitchenNotification {

  /** The hook's two refs. The effect runs on mount and whenever the count
      changes; running it again on an unchanged count would neither signal
      nor change anything, so every observation is modelled as a call. */
  class Notifier {
    var previousCount: int
    var isInitialMount: bool

    constructor (ordersCount: int)
      ensures previousCount == ordersCount && isInitialMount
    {
      previousCount := ordersCount;
      isInitialMount := true;
    }

    /** One run of the effect; `signal` stands for playing the sound. */
    method Observe(ordersCount: int) returns (signal: bool)
      modifies this
      ensures signal <==> !old(isInitialMount) && ordersCount > old(previousCount)
      ensures previousCount == ordersCount && !isInitialMount
    {
      if isInitialMount {
        isInitialMount := false;
        previousCount := ordersCount;
        return false;
      }
      signal := ordersCount > previousCount;
      previousCount := ordersCount;
    }
  }

  /** How many times the count goes strictly up from one observation to the next. */
  function Increases(counts: seq<int>): (n: nat)
    ensures |counts| <= 1 ==> n == 0
    ensures n <= (if |counts| == 0 then 0 else |counts| - 1)
  {
    if |counts| <= 1 then 0
    else Increases(counts[..|counts| - 1]) + (if counts[|counts| - 1] > counts[|counts| - 2] then 1 else 0)
  }

  /** A count that never goes up between observations gives no increase. */
  lemma {:induction false} NonIncreasingNeverSignals(counts: seq<int>)
    requires forall i :: 0 < i < |counts| ==> counts[i] <= counts[i - 1]
    ensures Increases(counts) == 0
  {
    if |counts| > 1 {
      NonIncreasingNeverSignals(counts[..|counts| - 1]);
    }
  }

  /** A count that goes up at every step signals every time but the first. */
  lemma {:induction false} RisingAlwaysSignals(counts: seq<int>)
    requires forall i :: 0 < i < |counts| ==> counts[i] > counts[i - 1]
    ensures |counts| > 0 ==> Increases(counts) == |counts| - 1
  {
    if |counts| > 1 {
      RisingAlwaysSignals(counts[..|counts| - 1]);
    }
  }

  /** Mounting the hook on the first count and feeding it every count in
      turn signals once per strict increase after the first observation. */
  method Run(counts: seq<int>) returns (signals: nat)
    ensures signals == Increases(counts)
  {
    if |counts| == 0 {
      return 0;
    }
    var n := new Notifier(counts[0]);
    signals := 0;
    for i := 0 to |counts|
      invariant i == 0 ==> n.isInitialMount && signals == 0
      invariant i > 0 ==> !n.isInitialMount && n.previousCount == counts[i - 1] && signals == Increases(counts[..i])
    {
      var s := n.Observe(counts[i]);
      if s {
        signals := signals + 1;
      }
      assert counts[..i + 1][..i] == counts[..i];
    }
    assert counts[..|counts|] == counts;
  }
}
