/** The agents manager seen from one session: a small machine that knows what was accepted, what
    became of it, and what still waits. AgentsFates.dfy shows that the manager behaves like it. */
module SessionViews {
  import opened Messages
  import opened SessionQueues
  import opened Histories
  import opened Agents

  datatype View = View(
    accepted: seq<Payload>,
    settled: seq<Settled>,   // what left the queue, and how it ended
    waiting: seq<Payload>,
    active: bool,
    running: nat,            // prompts that have not been answered
    commands: nat)

  function ViewOf(m: Manager, k: SessionKey): View {
    View(AcceptedBy(m.history, k), FatesOf(m.history, k), Pending(m.queue, k), k in m.queue.active,
         m.outstanding[k], Commands(m.history, k))
  }

  /** What an event means to the session. `arrives` says whether the prompt it starts, if any,
      reaches the agent. */
  datatype Cause =
    | Nothing
    | Message(payload: Payload, arrives: bool)
    | Command(endsTurn: bool)
    | Answer(owned: bool, arrives: bool)

  const NEW_SESSION := View([], [], [], false, 0, 0)

  function HandOverTo(v: View, taken: seq<Payload>, arrives: bool): View {
    v.(waiting := [], active := true,
       settled := v.settled + Labelled(taken, if arrives then Prompting else Failing),
       running := v.running + if arrives then 1 else 0)
  }

  /** A prompt is over: everything waiting is prompted with, or dropped if no agent owns the session. */
  function NextTurn(v: View, owned: bool, arrives: bool): View {
    if v.waiting == [] then v.(active := false)
    else if owned then HandOverTo(v, v.waiting, arrives)
    else v.(waiting := [], settled := v.settled + Labelled(v.waiting, Dropping))
  }

  function After(v: View, c: Cause): View {
    match c
    case Nothing => v
    case Message(p, arrives) =>
      var v1 := v.(accepted := v.accepted + [p]);
      if v.active then v1.(waiting := v.waiting + [p]) else HandOverTo(v1, v.waiting + [p], arrives)
    case Command(endsTurn) =>
      var v1 := v.(commands := v.commands + 1);
      if !endsTurn then v1
      else if v.waiting == [] then v1.(active := false)
      else v1.(waiting := v.waiting[1..], settled := v.settled + Labelled(v.waiting[..1], Dropping))
    case Answer(owned, arrives) =>
      if v.running == 0 then v
      else
        NextTurn(v.(running := v.running - 1), owned, arrives)
  }

  function Replay(v: View, causes: seq<Cause>): View {
    if causes == [] then v else After(Replay(v, causes[..|causes| - 1]), causes[|causes| - 1])
  }

  function Payloads(s: seq<Settled>): (ps: seq<Payload>)
    ensures |ps| == |s|
  {
    seq(|s|, i requires 0 <= i < |s| => s[i].payload)
  }

  /** No message is lost sight of, waiting messages keep the session active, and prompts are few. */
  predicate Sound(v: View) {
    && v.accepted == Payloads(v.settled) + v.waiting
    && (v.waiting != [] ==> v.active)
    && v.running <= v.commands + if v.active then 1 else 0
  }

  lemma PayloadsAdd(s: seq<Settled>, ps: seq<Payload>, fate: Fate)
    ensures Payloads(s + Labelled(ps, fate)) == Payloads(s) + ps
  {
  }

  lemma AfterIsSound(v: View, c: Cause)
    requires Sound(v)
    ensures Sound(After(v, c))
  {
    match c
    case Nothing =>
    case Message(p, arrives) =>
      PayloadsAdd(v.settled, v.waiting + [p], if arrives then Prompting else Failing);
      assert Payloads(v.settled) + v.waiting + [p] == Payloads(v.settled) + (v.waiting + [p]);
    case Command(_) =>
      if v.waiting != [] {
        PayloadsAdd(v.settled, v.waiting[..1], Dropping);
        assert v.waiting == v.waiting[..1] + v.waiting[1..];
      }
    case Answer(_, arrives) =>
      PayloadsAdd(v.settled, v.waiting, if arrives then Prompting else Failing);
      PayloadsAdd(v.settled, v.waiting, Dropping);
  }

  lemma {:induction false} ReplayIsSound(causes: seq<Cause>)
    ensures Sound(Replay(NEW_SESSION, causes))
  {
    if causes != [] {
      ReplayIsSound(causes[..|causes| - 1]);
      AfterIsSound(Replay(NEW_SESSION, causes[..|causes| - 1]), causes[|causes| - 1]);
    }
  }

  /** The session counts as busy, but no prompt of it is running whose answer could free it. */
  predicate Stuck(v: View) { v.active && v.running == 0 }

  /** What makes a session stuck, and what leaves it so. */
  predicate LeavesStuck(v: View, c: Cause) {
    match c
    case Nothing => Stuck(v)
    case Message(_, arrives) => if v.active then Stuck(v) else v.running == 0 && !arrives
    case Command(endsTurn) => Stuck(v) && !(endsTurn && v.waiting == [])
    case Answer(owned, arrives) =>
      if v.running == 0 then Stuck(v) else v.running == 1 && v.waiting != [] && !(owned && arrives)
  }

  /** A session becomes stuck exactly by a prompt that fails, or a batch that is dropped, when no other
      prompt is running; and it gets out exactly by a command that ends its turn when nothing waits. */
  lemma StuckExactlyWhen(v: View, c: Cause)
    requires Sound(v)
    ensures Stuck(After(v, c)) <==> LeavesStuck(v, c)
  {
  }

  /** Becoming stuck costs every message that was to be handed over. */
  lemma BecomingStuckLoses(v: View, c: Cause)
    requires Sound(v) && !Stuck(v) && Stuck(After(v, c))
    ensures var taken := v.waiting + if c.Message? then [c.payload] else [];
            && taken != [] && After(v, c).waiting == []
            && (|| After(v, c).settled == v.settled + Labelled(taken, Failing)
                || After(v, c).settled == v.settled + Labelled(taken, Dropping))
  {
    assert v.waiting + [] == v.waiting;
  }

  /** How many messages left the queue between two views. */
  function Left(v: View, v': View): int { |v'.settled| - |v.settled| }

  /** What waits for a stuck session is lost: whatever leaves is dropped, oldest first, and until all of
      it has left the session stays stuck and the rest keeps waiting in front. */
  predicate Doomed(v: View, v': View) {
    && v.settled <= v'.settled
    && (forall i :: 0 <= i < |v.waiting| && i < Left(v, v') ==>
          v'.settled[|v.settled| + i] == Settled(v.waiting[i], Dropping))
    && (Left(v, v') < |v.waiting| ==> Stuck(v') && v.waiting[Left(v, v')..] <= v'.waiting)
  }

  lemma DoomedStep(v: View, v': View, c: Cause)
    requires Doomed(v, v')
    ensures Doomed(v, After(v', c))
  {
    var v'' := After(v', c);
    assert v'.settled <= v''.settled;
    var d := Left(v, v');
    if d < |v.waiting| {
      assert v'.waiting[0] == v.waiting[d..][0] == v.waiting[d];
      if c.Command? && c.endsTurn {
        assert v''.settled == v'.settled + [Settled(v.waiting[d], Dropping)];
        assert v.waiting[d + 1..] == v.waiting[d..][1..];
      }
    }
  }

  /** Whatever comes, commands included, no message that waits for a stuck session is ever prompted
      with. */
  lemma {:induction false} StuckMessagesAreDoomed(v: View, causes: seq<Cause>)
    requires Stuck(v)
    ensures Doomed(v, Replay(v, causes))
  {
    if causes == [] {
      assert v.waiting[0..] == v.waiting;
    } else {
      StuckMessagesAreDoomed(v, causes[..|causes| - 1]);
      DoomedStep(v, Replay(v, causes[..|causes| - 1]), causes[|causes| - 1]);
    }
  }

  /** Without a command nothing leaves a stuck session's queue at all. */
  lemma {:induction false} StuckUntilCommand(v: View, causes: seq<Cause>)
    requires Stuck(v)
    requires forall i :: 0 <= i < |causes| ==> !causes[i].Command?
    ensures var v' := Replay(v, causes);
            && Stuck(v') && v'.settled == v.settled
            && v.waiting <= v'.waiting
  {
    if causes != [] { StuckUntilCommand(v, causes[..|causes| - 1]); }
  }
}
