/** The turn and the registry as objects. Every method is one critical section
    (or two, where the source unlocks in between) and changes the turn exactly
    as `TurnMachine.Step` says. */
module TurnObjects {
  import opened Base
  import opened Text
  import M = TurnMachine

  /** Closing a channel twice panics, so `Close` demands an open one. */
  class Channel {
    var closed: bool

    constructor ()
      ensures !closed
    {
      closed := false;
    }

    method Close()
      requires !closed
      modifies this
      ensures closed
    {
      closed := true;
    }
  }

  ghost function CloseCounts(channels: seq<Channel>): seq<nat>
    reads channels
  {
    seq(|channels|, i requires 0 <= i < |channels| reads channels => if channels[i].closed then 1 else 0)
  }

  /** What one pass of the Checkpoint loop does after its critical section. */
  datatype Gate = Fail | WaitOn(channel: Channel) | ReadContext

  class Turn {
    const key: string
    const reg: Registry
    var state: M.State
    var resume: Channel?
    var steer: seq<string>
    var checkpoints: nat
    var ctxDone: bool

    ghost var created: seq<Channel>
    ghost var accepted: seq<string>
    ghost var delivered: seq<string>
    ghost var dropped: seq<string>
    ghost var finished: bool
    ghost var ended: bool

    ghost function View(): M.Turn
      reads this, created
    {
      M.Turn(key, state,
             if resume == null || created == [] then None else Some(|created| - 1),
             CloseCounts(created), steer, checkpoints, ctxDone, accepted, delivered, dropped, finished, ended)
    }

    ghost predicate Valid()
      reads this, created
    {
      && (forall i, j :: 0 <= i < j < |created| ==> created[i] != created[j])
      && (resume != null ==> created != [] && created[|created| - 1] == resume)
      && M.TurnOk(View())
    }

    constructor (key: string, reg: Registry)
      ensures Valid() && View() == M.NewTurn(key)
      ensures this.key == key && this.reg == reg && created == []
    {
      this.key, this.reg := key, reg;
      state, resume, steer, checkpoints, ctxDone := M.Running, null, [], 0, false;
      created, accepted, delivered, dropped, finished, ended := [], [], [], [], false, false;
    }

    predicate Terminal()
      reads this
    {
      state.Cancelled? || state.Done?
    }

    method Steer(text: string) returns (ok: bool)
      requires Valid()
      modifies this
      ensures Valid() && View() == M.Step(old(View()), M.Steer(text))
      ensures ok == M.Accepts(old(View()), text) && created == old(created)
    {
      M.StepKeepsTurnOk(View(), M.Steer(text));
      var trimmed := TrimSpace(text);
      if trimmed == "" || state.Cancelled? || state.Done? {
        return false;
      }
      steer := steer + [trimmed];
      accepted := accepted + [trimmed];
      return true;
    }

    method Pause() returns (ok: bool)
      requires Valid()
      modifies this
      ensures Valid() && View() == M.Step(old(View()), M.Pause)
      ensures ok == old(state).Running?
      ensures if ok then |created| == |old(created)| + 1 && created[..|old(created)|] == old(created) && fresh(created[|created| - 1])
              else created == old(created)
    {
      M.StepKeepsTurnOk(View(), M.Pause);
      if !state.Running? {
        return false;
      }
      ghost var before := View();
      state := M.Paused;
      resume := new Channel();
      created := created + [resume];
      assert CloseCounts(created) == before.closes + [0];
      return true;
    }

    /** Close and forget the channel waiters block on. */
    method CloseResume()
      requires resume != null ==> !resume.closed
      requires forall i, j :: 0 <= i < j < |created| ==> created[i] != created[j]
      requires resume != null ==> created != [] && created[|created| - 1] == resume
      modifies this`resume, resume
      ensures View() == M.CloseResume(old(View())) && resume == null
    {
      ghost var before := View();
      if resume != null {
        resume.Close();
        resume := null;
        assert CloseCounts(created) == before.closes[|created| - 1 := before.closes[|created| - 1] + 1];
      }
    }

    method Resume() returns (ok: bool)
      requires Valid()
      modifies this, resume
      ensures Valid() && View() == M.Step(old(View()), M.Resume)
      ensures ok == old(state).Paused? && created == old(created)
    {
      M.StepKeepsTurnOk(View(), M.Resume);
      if !state.Paused? {
        return false;
      }
      OpenResume();
      state := M.Running;
      CloseResume();
      return true;
    }

    lemma OpenResume()
      requires Valid()
      ensures resume != null ==> !resume.closed
    {
      if resume != null {
        assert View().closes[|created| - 1] == 0;
      }
    }

    /** Cancel: mark under the lock, then cancel the context after it. */
    method Cancel() returns (ok: bool)
      requires Valid()
      modifies this, resume
      ensures Valid() && ok == !M.Terminal(old(View())) && created == old(created)
      ensures View() == if ok then M.Step(M.Step(old(View()), M.CancelMark), M.CancelContext) else old(View())
    {
      M.StepKeepsTurnOk(View(), M.CancelMark);
      M.StepKeepsTurnOk(M.Step(View(), M.CancelMark), M.CancelContext);
      if state.Cancelled? || state.Done? {
        return false;
      }
      OpenResume();
      state := M.Cancelled;
      CloseResume();
      ctxDone := true;
      return true;
    }

    method MarkDone()
      modifies this`state
      ensures View() == old(View()).(state := if old(state).Cancelled? then M.Cancelled else M.Done)
    {
      if !state.Cancelled? {
        state := M.Done;
      }
    }

    method MarkEnded()
      modifies this`ctxDone, this`ended
      ensures View() == old(View()).(ctxDone := true, ended := true)
    {
      ctxDone, ended := true, true;
    }

    /** End under the turn's lock. The context is cancelled before the unlock. */
    method EndSection()
      requires Valid()
      modifies this, resume
      ensures Valid() && View() == M.Step(old(View()), M.EndMark) && created == old(created)
    {
      M.StepKeepsTurnOk(View(), M.EndMark);
      OpenResume();
      MarkDone();
      CloseResume();
      MarkEnded();
    }

    /** End: finish, then detach from the registry. */
    method End()
      requires Valid()
      modifies this, resume, reg
      ensures Valid() && View() == M.Step(old(View()), M.EndMark) && created == old(created)
      ensures reg.turns == if key in old(reg.turns) && old(reg.turns)[key] == this
                           then old(reg.turns) - {key} else old(reg.turns)
    {
      EndSection();
      reg.Remove(this);
    }

    /** Hand over everything pending. */
    method TakeSteered() returns (texts: seq<string>)
      modifies this`steer, this`delivered
      ensures texts == old(steer) && View() == M.Deliver(old(View()))
    {
      texts := steer;
      steer := [];
      delivered := delivered + texts;
    }

    method Drop()
      modifies this`steer, this`dropped
      ensures View() == old(View()).(steer := [], dropped := old(dropped) + old(steer))
    {
      dropped := dropped + steer;
      steer := [];
    }

    method Drain() returns (texts: seq<string>)
      requires Valid()
      modifies this
      ensures Valid() && View() == M.Step(old(View()), M.Drain)
      ensures texts == old(steer) && created == old(created)
    {
      M.StepKeepsTurnOk(View(), M.Drain);
      texts := TakeSteered();
    }

    method DrainOrFinish() returns (texts: seq<string>)
      requires Valid()
      modifies this
      ensures Valid() && View() == M.Step(old(View()), M.DrainOrFinish)
      ensures texts == M.Leftover(old(View())) && created == old(created)
    {
      M.StepKeepsTurnOk(View(), M.DrainOrFinish);
      if state.Cancelled? {
        Drop();
        return [];
      }
      if |steer| > 0 {
        texts := TakeSteered();
        return;
      }
      state := M.Done;
      finished := true;
      return [];
    }

    /** One pass of the Checkpoint loop under the lock. */
    method CheckpointPass() returns (g: Gate)
      requires Valid()
      modifies this
      ensures Valid() && created == old(created)
      ensures g.Fail? <==> old(state).Cancelled?
      ensures g.WaitOn? <==> old(state).Paused?
      ensures g.WaitOn? ==> g.channel == old(resume) && !g.channel.closed
      ensures View() == if g.ReadContext? then M.Step(old(View()), M.Pass) else old(View())
    {
      M.StepKeepsTurnOk(View(), M.Pass);
      match state
      case Cancelled =>
        return Fail;
      case Paused =>
        OpenResume();
        return WaitOn(resume);
      case _ =>
        checkpoints := checkpoints + 1;
        return ReadContext;
    }
  }

  class Registry {
    var turns: map<string, Turn>

    constructor ()
      ensures turns == map[]
    {
      turns := map[];
    }

    /** Claims `key` unless a turn that is still live holds it. */
    method TryBegin(key: string) returns (t: Turn?)
      modifies this
      ensures t == null <==> key in old(turns) && !old(turns)[key].Terminal()
      ensures t == null ==> turns == old(turns)
      ensures t != null ==> fresh(t) && t.Valid() && t.View() == M.NewTurn(key) && t.reg == this
      ensures t != null ==> turns == old(turns)[key := t]
    {
      if key in turns && !turns[key].Terminal() {
        return null;
      }
      t := new Turn(key, this);
      turns := turns[key := t];
    }

    /** Detaches `t` only while it is still the current turn of its key. */
    method Remove(t: Turn)
      modifies this
      ensures turns == if t.key in old(turns) && old(turns)[t.key] == t then old(turns) - {t.key} else old(turns)
    {
      if t.key in turns && turns[t.key] == t {
        turns := turns - {t.key};
      }
    }
  }
}
