/** The wait as an object: its listener flag, its race and its outcome, beside the shared height tracker. */
module Provable {
  import opened Common
  import opened Heights
  import opened ProvableValues

  class ProvableWait {
    const hash: string
    const me: nat
    const tracker: HeightTracker
    var attached: bool
    var race: Race
    var outcome: Option<Outcome>
    var timerFired: bool

    /** The listener is attached before the query is sent. */
    constructor (hash: string, me: nat, tracker: HeightTracker)
      ensures this.tracker == tracker
      ensures Value() == Start(hash, me, tracker.Value())
    {
      this.hash, this.me, this.tracker := hash, me, tracker;
      attached, race, outcome, timerFired := true, Open, None, false;
    }

    ghost function Value(): WaitState
      reads this, tracker
    {
      WaitState(hash, me, attached, race, outcome, timerFired, tracker.Value())
    }

    method Settle(o: Outcome)
      modifies this`outcome
      ensures Value() == ProvableValues.Settle(old(Value()), o)
    {
      if outcome.None? {
        outcome := Some(o);
      }
    }

    method Win(r: TxResult)
      modifies this, tracker
      ensures Value() == ProvableValues.Win(old(Value()), r)
    {
      if !race.Open? {
        return;
      }
      race := Won(r);
      if r.isOk {
        var now := tracker.WaitForHeight(me, r.height + 1);
        if now {
          Settle(Returned(r));
        }
      } else {
        Settle(Returned(r));
      }
    }

    /** The one-shot listener detaches itself first. */
    method OnTransactionEvent(r: TxResult)
      modifies this, tracker
      ensures Value() == Step(old(Value()), TransactionEvent(r))
    {
      if attached {
        attached := false;
        Win(r);
      }
    }

    method OnReplyFound(r: TxResult)
      modifies this, tracker
      ensures Value() == Step(old(Value()), ReplyFound(r))
    {
      attached := false;
      Win(r);
    }

    method OnReplyError(code: int, data: string)
      modifies this
      ensures Value() == Step(old(Value()), ReplyError(code, data))
    {
      if !IsNotFound(hash, code, data) && race.Open? {
        race := Lost(code, data);
        Settle(Failed(code, data));
      }
    }

    /** The height handlers run; the wait goes on if its own was among those resolved. */
    method OnNewBlock(height: int)
      modifies this, tracker
      ensures Value() == Step(old(Value()), NewBlockEvent(height))
    {
      tracker.OnNewBlock(height);
      if race.Won? && me in tracker.resolved {
        Settle(Returned(race.result));
      }
    }

    method OnTimer()
      modifies this
      ensures Value() == Step(old(Value()), TimerFires)
    {
      attached, timerFired := false, true;
      Settle(WaitPeriodExceeded);
    }
  }
}
