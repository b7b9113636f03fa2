/** A behaviour, without timeout or cancel, in which the server aborts after a restart: a bind that the first instance
    has answered reaches the second one again, and a later bind of the same client, stamped with what the client has
    finished since, prunes its placeholder before the handler returns. */
module RestartRun {
  import opened Common
  import opened FinishedWindow
  import opened ReplyWindow
  import opened ServerMachine
  import opened RpcClient
  import opened RpcMachine
  import opened Runs
  import opened HaltingRun

  const FIVE := Reply(0, Be32(5))
  const SIX := Reply(0, Be32(6))

  const GOT_ONE := BEFORE.(window := [1], calls := map[1 := Call(true, FIVE)])
  const TWO_CALLS :=
    GOT_ONE.(nextXid := 3, calls := map[1 := Call(true, FIVE), 2 := PENDING], issued := map[1 := FIRST, 2 := SECOND])
  const GOT_TWO := TWO_CALLS.(window := [2], calls := map[1 := Call(true, FIVE), 2 := Call(true, FIVE)])
  const THREE_CALLS :=
    GOT_TWO.(nextXid := 4, calls := map[1 := Call(true, FIVE), 2 := Call(true, FIVE), 3 := PENDING],
             issued := map[1 := FIRST, 2 := SECOND, 3 := THIRD])

  const LOG_ONE := [Execution(5, FIRST)]
  const LOG_TWO := [Execution(5, FIRST), Execution(5, SECOND)]

  const ANSWERED_FIRST := Server(5, Windows(map[7 := [Entry(1, Some(FIVE))]], map[7 := 0]), false, {5},
                                 map[(7, 1) := Some(FIVE)], LOG_ONE, map[ExecutionKey(5, 7, 1) := FIVE])
  const RUNNING_SECOND := Server(5, Windows(map[7 := [Entry(1, Some(FIVE)), Entry(2, None)]], map[7 := 1]), false, {5},
                                 map[(7, 1) := Some(FIVE), (7, 2) := None], LOG_TWO, map[ExecutionKey(5, 7, 1) := FIVE])
  const COMPLETED := map[ExecutionKey(5, 7, 1) := FIVE, ExecutionKey(5, 7, 2) := FIVE]
  const ANSWERED_SECOND := Server(5, Windows(map[7 := [Entry(1, Some(FIVE)), Entry(2, Some(FIVE))]], map[7 := 1]), false,
                                  {5}, map[(7, 1) := Some(FIVE), (7, 2) := Some(FIVE)], LOG_TWO, COMPLETED)

  const REBORN := Server(6, Windows(map[], map[]), false, {5, 6}, map[], LOG_TWO, COMPLETED)
  const AGAIN := REBORN.(win := Windows(map[7 := [Entry(1, None)]], map[7 := 0]), seen := map[(7, 1) := None],
                         log := LOG_TWO + [Execution(6, FIRST)])
  const PRUNED := AGAIN.(win := Windows(map[7 := [Entry(3, None)]], map[7 := 2]),
                         seen := map[(7, 1) := None, (7, 3) := None],
                         log := LOG_TWO + [Execution(6, FIRST)] + [Execution(6, THIRD)])

  lemma ClientBegins()
    ensures Refusal(FRESH_CLIENT, BIND) == 0 && Begin(FRESH_CLIENT, 7, BIND, []) == BEFORE
    ensures Refusal(GOT_ONE, BIND) == 0 && Begin(GOT_ONE, 7, BIND, []) == TWO_CALLS
    ensures Refusal(GOT_TWO, BIND) == 0 && Begin(GOT_TWO, 7, BIND, []) == THREE_CALLS
  {
    hide Be32;
  }

  lemma ClientHears()
    ensures GotPdu(BEFORE, 1, FIVE) == GOT_ONE && GotPdu(TWO_CALLS, 2, FIVE) == GOT_TWO
  {
    HaltingReports();
    hide Be32, Report;
  }

  lemma FirstInstance()
    ensures Accept(FreshServer(5), FIRST) == RUNNING_FIRST && ImmediateReplies(FreshServer(5), FIRST) == {}
    ensures !FreshServer(5).halted && Running(RUNNING_FIRST, 7, 1)
    ensures Answered(RUNNING_FIRST, 7, 1, FIVE) == ANSWERED_FIRST
  {
    HaltingServer();
    hide Be32;
    assert [Entry(1, None)][1..] == [];
    assert [Entry(1, Some(FIVE))] + [] == [Entry(1, Some(FIVE))];
    assert SetReply([Entry(1, None)], 1, FIVE) == Some([Entry(1, Some(FIVE))]);
  }

  lemma SecondArrives()
    ensures Accept(ANSWERED_FIRST, SECOND) == RUNNING_SECOND && ImmediateReplies(ANSWERED_FIRST, SECOND) == {}
  {
    hide Be32;
    var first, second := Entry(1, Some(FIVE)), Entry(2, None);
    assert [first][1..] == [];
    assert Scan([], 2, 1) == (New, [second]);
    assert Scan([first], 2, 1) == (New, [first] + [second]);
    assert [first] + [second] == [first, second] && LOG_ONE + [Execution(5, SECOND)] == LOG_TWO;
  }

  lemma SecondReturns()
    ensures Running(RUNNING_SECOND, 7, 2) && Answered(RUNNING_SECOND, 7, 2, FIVE) == ANSWERED_SECOND
  {
    hide Be32;
    var first, second, answered := Entry(1, Some(FIVE)), Entry(2, None), Entry(2, Some(FIVE));
    assert [first, second][1..] == [second] && [second][1..] == [];
    assert [answered] + [] == [answered] && [first] + [answered] == [first, answered];
    assert SetReply([second], 2, FIVE) == Some([answered]);
    assert SetReply([first, second], 2, FIVE) == Some([first, answered]);
  }

  lemma SecondInstance()
    ensures After(ANSWERED_SECOND, Restart(6)) == REBORN
    ensures Accept(REBORN, FIRST) == AGAIN && ImmediateReplies(REBORN, FIRST) == {}
    ensures Accept(AGAIN, THIRD) == PRUNED && ImmediateReplies(AGAIN, THIRD) == {}
    ensures Running(PRUNED, 7, 1) && Answered(PRUNED, 7, 1, SIX) == PRUNED.(halted := true)
  {
    hide Be32;
    assert Scan([], 1, 0) == (New, [Entry(1, None)]);
    assert [Entry(1, None)][1..] == [] && [Entry(3, None)][1..] == [];
    assert Scan([Entry(1, None)], 3, 2) == (New, [Entry(3, None)]);
    assert SetReply([Entry(3, None)], 1, SIX) == None;
  }

  lemma RestartCanHaltTheServer() returns (states: seq<System>, steps: seq<Step>)
    ensures Behaviour(states, steps) && states[|steps|].server.halted
    ensures forall i :: 0 <= i < |steps| ==> !steps[i].EndCall? && !steps[i].Cancel?
  {
    ClientBegins();
    ClientHears();
    FirstInstance();
    SecondArrives();
    SecondReturns();
    SecondInstance();
    hide Begin, GotPdu, Accept, Answered, After, ImmediateReplies, Refusal, FreshServer, Be32, RunTo, Alone, Running;
    var v := View(FRESH_CLIENT, {}, {}, FreshServer(5));
    var r := Starts7(GivingUp);
    r := Invokes(r, v, GivingUp);
    v := v.(cl := BEFORE);
    r := Transmits(r, v, GivingUp, 1);
    v := v.(requests := v.requests + {FIRST});
    r := Receives(r, v, GivingUp, FIRST);
    v := v.(sv := RUNNING_FIRST);
    r := Returns(r, v, GivingUp, 1);
    v := v.(sv := ANSWERED_FIRST, replies := v.replies + {Message(7, 1, FIVE)});
    r := Delivers(r, v, GivingUp, Message(7, 1, FIVE));
    v := v.(cl := GOT_ONE);
    r := Invokes(r, v, GivingUp);
    v := v.(cl := TWO_CALLS);
    r := Transmits(r, v, GivingUp, 2);
    v := v.(requests := v.requests + {SECOND});
    r := Receives(r, v, GivingUp, SECOND);
    v := v.(sv := RUNNING_SECOND);
    r := Returns(r, v, GivingUp, 2);
    v := v.(sv := ANSWERED_SECOND, replies := v.replies + {Message(7, 2, FIVE)});
    r := Delivers(r, v, GivingUp, Message(7, 2, FIVE));
    v := v.(cl := GOT_TWO);
    r := Invokes(r, v, GivingUp);
    v := v.(cl := THREE_CALLS);
    r := Transmits(r, v, GivingUp, 3);
    v := v.(requests := v.requests + {THIRD});
    r := Reboots(r, v, GivingUp, 6);
    v := v.(sv := REBORN);
    r := Receives(r, v, GivingUp, FIRST);
    v := v.(sv := AGAIN);
    r := Receives(r, v, GivingUp, THIRD);
    v := v.(sv := PRUNED);
    r := Returns(r, v, GivingUp, 1);
    IsRun(r, v.(sv := PRUNED.(halted := true)), GivingUp);
    states, steps := r.states, r.steps;
  }
}
