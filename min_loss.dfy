/**
 * `check_min_loss` (utils.py): after each epoch, decides whether the newest
 * loss beats every earlier one, extends the progress message, and raises the
 * flag that asks the caller to save the model. Losses are only compared, so
 * they are reals; the `"{:10.5f}"` rendering of a loss is a parameter.
 */
module MinLoss {
  import opened Results

  /** `np.min` of a non-empty list of losses. */
  function MinOf(losses: seq<real>): (m: real)
    requires |losses| > 0
    ensures m in losses
    ensures forall i :: 0 <= i < |losses| ==> m <= losses[i]
  {
    if |losses| == 1 then losses[0]
    else
      var earlier := MinOf(losses[..|losses| - 1]);
      if losses[|losses| - 1] < earlier then losses[|losses| - 1] else earlier
  }

  /**
   * `np.less(current, min_loss)`: the newest loss is below the minimum of the
   * earlier ones, which is itself when there are none. It holds exactly when
   * there is an earlier loss and the newest is strictly below every one of them.
   */
  function IsNewRecord(losses: seq<real>): (b: bool)
    ensures b <==> && |losses| >= 2
                   && forall i :: 0 <= i < |losses| - 1 ==> losses[|losses| - 1] < losses[i]
  {
    |losses| >= 2 && losses[|losses| - 1] < MinOf(losses[..|losses| - 1])
  }

  /** The 14 spaces that keep the message columns aligned when there is no improvement. */
  const NoImprovement: string := "              "

  /**
   * `check_min_loss(losses, epoch, msg, saveFlag, toSave)`; `toSave` says whether
   * the `to_save` argument is given (`is not None`). An empty list raises IndexError.
   */
  function CheckMinLoss(losses: seq<real>, msg: string, saveFlag: bool, toSave: bool,
                        render: real -> string): (r: Result<(string, bool)>)
    ensures r.Failure? <==> losses == []
    ensures r.Failure? ==> r.error == IndexError
    ensures r.Success? ==> r.value.1 == (saveFlag || (toSave && IsNewRecord(losses)))
    ensures r.Success? ==> r.value.0 == msg + if IsNewRecord(losses)
                                              then "    " + render(losses[|losses| - 1]) + " "
                                              else NoImprovement
  {
    if losses == [] then Failure(IndexError)
    else
      var current := losses[|losses| - 1];
      var earlier := losses[..|losses| - 1];
      var minLoss := if |earlier| > 0 then MinOf(earlier) else current;
      if current < minLoss then
        Success((msg + "    " + render(current) + " ", saveFlag || toSave))
      else
        Success((msg + NoImprovement, saveFlag))
  }

  /** With a single loss there is nothing to beat: the message gets the padding and the flag is kept. */
  lemma SingleLossNeverImproves(loss: real, msg: string, saveFlag: bool, toSave: bool, render: real -> string)
    ensures CheckMinLoss([loss], msg, saveFlag, toSave, render) == Success((msg + NoImprovement, saveFlag))
    ensures |NoImprovement| == 14
  {
  }

  /** The flag is never lowered: a raised flag stays raised whatever the losses. */
  lemma FlagNeverReset(losses: seq<real>, msg: string, toSave: bool, render: real -> string)
    requires losses != []
    ensures CheckMinLoss(losses, msg, true, toSave, render).value.1
  {
  }

  /**
   * Over one training run, the epochs at which the check reports an improvement
   * carry strictly decreasing losses: each record beats every earlier record.
   */
  lemma RecordsDecrease(losses: seq<real>, i: nat, j: nat)
    requires i < j < |losses|
    requires IsNewRecord(losses[..i + 1]) && IsNewRecord(losses[..j + 1])
    ensures losses[j] < losses[i]
  {
    assert losses[..j + 1][i] == losses[i];
  }

  /** A new record is the unique minimum of the whole run so far. */
  lemma NewRecordIsUniqueMinimum(losses: seq<real>)
    requires IsNewRecord(losses)
    ensures MinOf(losses) == losses[|losses| - 1]
    ensures forall i :: 0 <= i < |losses| - 1 ==> MinOf(losses) < losses[i]
  {
  }
}
