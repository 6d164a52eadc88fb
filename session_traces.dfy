/**
 * Properties of the session cells over whole sequences of inputs: what the
 * component can and cannot reach by handling socket events and drops one at
 * a time.
 */
module SessionTraces {
  import opened Wrappers
  import opened Session

  /** No input in `inputs` is a socket event carrying a new turn owner. */
  predicate NoTurnNotice(inputs: seq<Input>) {
    forall k :: 0 <= k < |inputs| ==> !(inputs[k].Socket? && (inputs[k].e.Start? || inputs[k].e.TurnNotice?))
  }

  /** No input in `inputs` is a role assignment. */
  predicate NoRoleAssignment(inputs: seq<Input>) {
    forall k :: 0 <= k < |inputs| ==> !(inputs[k].Socket? && inputs[k].e.RoleAssigned?)
  }

  /** No input in `inputs` is a session start. */
  predicate NoStart(inputs: seq<Input>) {
    forall k :: 0 <= k < |inputs| ==> !(inputs[k].Socket? && inputs[k].e.Start?)
  }

  /** How many inputs are piece drops. */
  function DropCount(inputs: seq<Input>): (n: nat)
    ensures n <= |inputs|
  {
    if inputs == [] then 0 else (if inputs[0].PieceDrop? then 1 else 0) + DropCount(inputs[1..])
  }

  /** Every handler and every drop keeps the board widget and the game in agreement. */
  lemma {:induction false} RunKeepsBoardAgreement(c: Cells, inputs: seq<Input>, validate: Validator)
    requires BoardAgrees(c)
    ensures BoardAgrees(Run(c, inputs, validate))
    decreases |inputs|
  {
    if inputs != [] {
      RunKeepsBoardAgreement(Step(c, inputs[0], validate), inputs[1..], validate);
    }
  }

  /**
   * Only the server moves the turn: without a `start` or `turn` event the
   * turn owner stays put, however many moves are dropped or broadcast.
   */
  lemma {:induction false} TurnChangesOnlyOnServerNotice(c: Cells, inputs: seq<Input>, validate: Validator)
    requires NoTurnNotice(inputs)
    ensures Run(c, inputs, validate).currentTurn == c.currentTurn
    decreases |inputs|
  {
    if inputs != [] {
      var next := Step(c, inputs[0], validate);
      assert Same(c, next, CurrentTurn);
      TurnChangesOnlyOnServerNotice(next, inputs[1..], validate);
    }
  }

  /**
   * A client that has not been given a color emits no move, whatever is
   * dropped, until a role event assigns it one.
   */
  lemma {:induction false} UnseatedClientEmitsNothing(c: Cells, inputs: seq<Input>, validate: Validator)
    requires c.color == None
    requires NoRoleAssignment(inputs)
    ensures Run(c, inputs, validate).outbox == c.outbox
    ensures Run(c, inputs, validate).color == None
    decreases |inputs|
  {
    if inputs != [] {
      var next := Step(c, inputs[0], validate);
      assert Same(c, next, Color);
      UnseatedClientEmitsNothing(next, inputs[1..], validate);
    }
  }

  /**
   * Socket handlers never emit and a drop emits at most one `move`, so the
   * outbox only grows, by `move` messages, at most one per drop.
   */
  lemma {:induction false} OutboxGrowsOnlyByDrops(c: Cells, inputs: seq<Input>, validate: Validator)
    ensures var r := Run(c, inputs, validate);
      && |c.outbox| <= |r.outbox| <= |c.outbox| + DropCount(inputs)
      && r.outbox[..|c.outbox|] == c.outbox
      && forall k :: |c.outbox| <= k < |r.outbox| ==> r.outbox[k].MoveMsg?
    decreases |inputs|
  {
    if inputs != [] {
      var next := Step(c, inputs[0], validate);
      OutboxGrowsOnlyByDrops(next, inputs[1..], validate);
      var r := Run(next, inputs[1..], validate);
      assert r.outbox[..|next.outbox|] == next.outbox;
      assert next.outbox[..|c.outbox|] == c.outbox;
      assert r.outbox[..|c.outbox|] == r.outbox[..|next.outbox|][..|c.outbox|];
    }
  }

  /**
   * Once the session is not (or no longer) connected, the peer setup guard
   * stays closed until the next `start` event, whatever else arrives.
   */
  lemma {:induction false} SetupWaitsForStart(c: Cells, inputs: seq<Input>, validate: Validator)
    requires !c.isConnected
    requires NoStart(inputs)
    ensures !Run(c, inputs, validate).isConnected
    decreases |inputs|
  {
    if inputs != [] {
      var next := Step(c, inputs[0], validate);
      assert !next.isConnected by { assert !inputs[0].Socket? || !inputs[0].e.Start?; }
      SetupWaitsForStart(next, inputs[1..], validate);
    }
  }

  /**
   * The client does not hand the turn over after its own move: a second
   * drop before the server's `turn` event passes the turn gate again and is
   * decided by the validator alone.
   */
  lemma AcceptedDropKeepsTurnGateOpen(c: Cells, from: string, to: string, from2: string, to2: string, validate: Validator)
    requires Drop(c, from, to, validate).accepted
    ensures var c2 := Drop(c, from, to, validate).next;
      OwnsTurn(c2) && (Drop(c2, from2, to2, validate).accepted <==> validate(c2.game, from2, to2, QueenPromotion).Some?)
  {
  }

  /**
   * The turn gate does not look at whether a session has started: a client
   * told it plays white may move from the initial game before any `start`.
   */
  lemma WhiteMayMoveBeforeStart(from: string, to: string, validate: Validator)
    requires validate(StartFen, from, to, QueenPromotion).Some?
    ensures var c := OnRoleAssigned(Initial(), Some("initiator"), Some(InitialTurn), "");
      !c.isConnected && !c.socketConnected && Drop(c, from, to, validate).accepted
  {
  }
}
