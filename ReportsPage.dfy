/** The running balance the Reports page prints beside each stock-card movement:
    starting from the card's opening balance, each row adds its quantity in and
    takes away its quantity out. */
module ReportsPage {
  import opened Sorting
  import opened ReportController

  lemma NetFlowStep(mvs: seq<Movement>, k: nat)
    requires k < |mvs|
    ensures NetFlow(mvs[..k + 1]) == NetFlow(mvs[..k]) + Flow(mvs[k])
  {
    assert mvs[..k + 1] == mvs[..k] + [mvs[k]];
    SumOfConcat(mvs[..k], [mvs[k]], Flow);
    assert [mvs[k]][1..] == [];
  }

  /** The `movements.map` with its running `currentBal`: the balance after each
      row is the opening balance plus the net flow of the rows up to and including
      it, so the last one is the opening plus the whole card's net flow. */
  method WithBalances(opening: int, movements: seq<Movement>) returns (balances: seq<int>)
    ensures |balances| == |movements|
    ensures forall k :: 0 <= k < |movements| ==> balances[k] == opening + NetFlow(movements[..k + 1])
    ensures |movements| > 0 ==> balances[|movements| - 1] == opening + NetFlow(movements)
  {
    var currentBal := opening;
    balances := [];
    var i := 0;
    while i < |movements|
      invariant 0 <= i <= |movements|
      invariant |balances| == i
      invariant currentBal == opening + NetFlow(movements[..i])
      invariant forall k :: 0 <= k < i ==> balances[k] == opening + NetFlow(movements[..k + 1])
    {
      var m := movements[i];
      NetFlowStep(movements, i);
      currentBal := currentBal + m.qtyIn - m.qtyOut;
      balances := balances + [currentBal];
      i := i + 1;
    }
    assert movements[..i] == movements;
  }
}
