/** The agent's half of the sleep protocol: the message handler with its sleep gate, the broadcast
    subscription, and the heartbeat's liveness refresh and orphan teardown. */
module Agent {
  import opened Options
  import opened Scheduler

  datatype AgentState = AgentState(
    id: AgentId,
    appTopic: Option<Topic>,
    sleep: Option<Wake>,
    subscribed: bool,
    down: bool,
    lastMessage: real)

  /** What the scheduler sends: a step or a shutdown, each with its step number. */
  datatype Msg = StepMsg(step: int) | StopMsg(step: int)

  /** What the subclass does with a message it processes: it works and hints a nap, it leaves the
      market, or it raises.  A handler that raises before its clock moved reports an older step. */
  datatype Turn =
    | Worked(didStep: bool, nap: int)
    | LeftMarket(didStep: bool)
    | Crashed(reported: int, left: bool)

  predicate TurnFor(turn: Turn, msg: Msg) {
    turn.Crashed? ==> turn.reported <= msg.step
  }

  predicate Before(step: int, w: Wake) {
    w.Forever? || step < w.step
  }

  // ---------------------------------------------------------------- subscription

  /** `ok` says whether the broker call went through. */
  function Resubscribed(a: AgentState, ok: bool): AgentState {
    if !a.subscribed && ok then a.(subscribed := true) else a
  }

  function Unsubscribed(a: AgentState, ok: bool): AgentState {
    if a.subscribed && ok then a.(subscribed := false) else a
  }

  // ---------------------------------------------------------------- messages

  /** The sleep gate: the broadcast is dropped without a reply. */
  predicate Swallows(a: AgentState, msg: Msg, wake: bool) {
    msg.StepMsg? && !a.down && a.sleep.Some? && Before(msg.step, a.sleep.value) && !wake
  }

  function AfterSwallow(a: AgentState, ok: bool): AgentState {
    if a.sleep == Some(Forever) then Unsubscribed(a, ok) else a
  }

  function NapFrom(step: int, nap: int): Option<Wake> {
    if nap == 0 then None else if nap < 0 then Some(Forever) else Some(At(step + nap))
  }

  function AfterWork(a: AgentState, step: int, nap: int, ok: bool): AgentState {
    var b := a.(sleep := NapFrom(step, nap));
    if nap < 0 then Unsubscribed(b, ok) else b
  }

  function CrashReply(a: AgentState, reported: int): Reply {
    Reply(a.id, reported, Error, false, 0, None)
  }

  /** The agent after an awake step, and its reply. */
  function AwakeStep(a: AgentState, step: int, turn: Turn, ok: bool): (AgentState, Reply) {
    match turn
    case Worked(didStep, nap) =>
      (AfterWork(a.(sleep := None), step, nap, ok),
       Reply(a.id, step, Completed, didStep, if nap < 0 then -1 else nap, if nap < 0 then a.appTopic else None))
    case LeftMarket(didStep) =>
      (a.(sleep := None, down := true), Reply(a.id, step, Shutdown, didStep, 0, None))
    case Crashed(reported, left) =>
      (a.(sleep := None, down := a.down || left), CrashReply(a, reported))
  }

  function StopReply(a: AgentState, step: int, turn: Turn): Reply {
    if turn.Crashed? then CrashReply(a, turn.reported) else Reply(a.id, step, Shutdown, true, 0, None)
  }

  /** The whole message handler. */
  function React(a: AgentState, msg: Msg, wake: bool, turn: Turn, ok: bool): (AgentState, Option<Reply>) {
    if msg.StopMsg? then (a.(down := true), Some(StopReply(a, msg.step, turn)))
    else if a.down then (a, None)
    else if Swallows(a, msg, wake) then (AfterSwallow(a, ok), None)
    else
      var (b, r) := AwakeStep(a, msg.step, turn, ok);
      (b, Some(r))
  }

  /** An event on the agent's own topic wakes an indefinite sleeper's subscription. */
  function AfterAppEvent(a: AgentState, ok: bool): AgentState {
    if a.sleep.Some? && !a.subscribed then Resubscribed(a, ok) else a
  }

  /** The scheduler's direct shutdown notice arrives on the agent's own topic. */
  function ReactToNotice(a: AgentState, step: int, turn: Turn, ok: bool): (AgentState, Option<Reply>) {
    React(Resubscribed(a, ok), StopMsg(step), false, turn, ok)
  }

  // ---------------------------------------------------------------- heartbeat

  predicate WantsRefresh(a: AgentState, now: real, orphanTimeout: real) {
    !a.down && a.sleep.Some? && !a.subscribed && now - a.lastMessage > orphanTimeout / 2.0
  }

  predicate Orphaned(a: AgentState, now: real, orphanTimeout: real) {
    !a.down && now - a.lastMessage > orphanTimeout
  }

  function AfterHeartbeat(a: AgentState, now: real, orphanTimeout: real, ok: bool): AgentState {
    var b := if WantsRefresh(a, now, orphanTimeout) then Resubscribed(a, ok) else a;
    if Orphaned(b, now, orphanTimeout) then b.(down := true) else b
  }

  // ---------------------------------------------------------------- the class

  class OpenRideAgent {
    const id: AgentId
    const appTopic: Option<Topic>
    var sleep: Option<Wake>
    var subscribed: bool
    var down: bool
    var lastMessage: real

    ghost function View(): AgentState
      reads this
    {
      AgentState(id, appTopic, sleep, subscribed, down, lastMessage)
    }

    constructor (id: AgentId, appTopic: Option<Topic>, now: real)
      ensures View() == AgentState(id, appTopic, None, true, false, now)
    {
      this.id, this.appTopic := id, appTopic;
      sleep, subscribed, down, lastMessage := None, true, false, now;
    }

    method ResubscribeBroadcast(ok: bool)
      modifies this
      ensures View() == Resubscribed(old(View()), ok)
    {
      if !subscribed {
        if ok {
          subscribed := true;
        }
      }
    }

    method UnsubscribeBroadcast(ok: bool)
      modifies this
      ensures View() == Unsubscribed(old(View()), ok)
    {
      if subscribed {
        if ok {
          subscribed := false;
        }
      }
    }

    method HandleMessage(msg: Msg, wake: bool, turn: Turn, ok: bool) returns (reply: Option<Reply>)
      modifies this
      ensures (View(), reply) == React(old(View()), msg, wake, turn, ok)
    {
      if msg.StepMsg? && down {
        return None;
      }
      if msg.StepMsg? && sleep.Some? {
        if Before(msg.step, sleep.value) && !wake {
          if sleep.value == Forever && subscribed {
            UnsubscribeBroadcast(ok);
          }
          return None;
        }
        sleep := None;
      }
      if msg.StopMsg? {
        reply := Some(if turn.Crashed? then Reply(id, turn.reported, Error, false, 0, None)
                      else Reply(id, msg.step, Shutdown, true, 0, None));
        down := true;
        return;
      }
      match turn {
        case Worked(didStep, nap) =>
          if nap > 0 {
            sleep := Some(At(msg.step + nap));
            reply := Some(Reply(id, msg.step, Completed, didStep, nap, None));
          } else if nap < 0 {
            sleep := Some(Forever);
            reply := Some(Reply(id, msg.step, Completed, didStep, -1, appTopic));
            UnsubscribeBroadcast(ok);
          } else {
            reply := Some(Reply(id, msg.step, Completed, didStep, 0, None));
          }
        case LeftMarket(didStep) =>
          down := true;
          reply := Some(Reply(id, msg.step, Shutdown, didStep, 0, None));
        case Crashed(reported, left) =>
          down := down || left;
          reply := Some(Reply(id, reported, Error, false, 0, None));
      }
    }

    method HandleAppEvent(ok: bool)
      modifies this
      ensures View() == AfterAppEvent(old(View()), ok)
    {
      if sleep.Some? && !subscribed {
        ResubscribeBroadcast(ok);
      }
    }

    method HandleNotice(step: int, turn: Turn, ok: bool) returns (reply: Option<Reply>)
      modifies this
      ensures (View(), reply) == ReactToNotice(old(View()), step, turn, ok)
    {
      ResubscribeBroadcast(ok);
      reply := HandleMessage(StopMsg(step), false, turn, ok);
    }

    method HandleHeartbeatFailure(now: real, orphanTimeout: real, ok: bool)
      modifies this
      ensures View() == AfterHeartbeat(old(View()), now, orphanTimeout, ok)
    {
      if !down && sleep.Some? && !subscribed && now - lastMessage > orphanTimeout / 2.0 {
        ResubscribeBroadcast(ok);
      }
      if !down && now - lastMessage > orphanTimeout {
        down := true;
      }
    }

    method NoteMessage(now: real)
      modifies this
      ensures View() == old(View()).(lastMessage := now)
    {
      lastMessage := now;
    }
  }
}
