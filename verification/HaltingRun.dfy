/** A behaviour, without restart or cancel, in which the server aborts: a bind is running when its caller times out,
    two later calls push the watermark past it, and its placeholder is pruned before the handler returns. */
module HaltingRun {
  import opened Common
  import opened FinishedWindow
  import opened ReplyWindow
  import opened ServerMachine
  import opened RpcClient
  import opened RpcMachine
  import opened Runs

  const FIRST := Request(7, 1, BIND, 0, 0, [])
  const SECOND := Request(7, 2, BIND, 0, 1, [])
  const THIRD := Request(7, 3, BIND, 0, 2, [])
  const LATE := Reply(TIMEOUT_FAILURE, [])
  const PENDING := Call(false, Reply(0, []))

  const BEFORE := FRESH_CLIENT.(nextXid := 2, calls := map[1 := PENDING], issued := map[1 := FIRST])
  const ONE_LATE := BEFORE.(window := [1], calls := map[], outcomes := map[1 := LATE])
  const TWO_CALLED := ONE_LATE.(nextXid := 3, calls := map[2 := PENDING], issued := map[1 := FIRST, 2 := SECOND])
  const TWO_LATE := TWO_CALLED.(window := [2], calls := map[], outcomes := map[1 := LATE, 2 := LATE])
  const THREE_CALLED :=
    TWO_LATE.(nextXid := 4, calls := map[3 := PENDING], issued := map[1 := FIRST, 2 := SECOND, 3 := THIRD])

  const RUNNING_FIRST := Server(5, Windows(map[7 := [Entry(1, None)]], map[7 := 0]), false,
                                {5}, map[(7, 1) := None], [Execution(5, FIRST)], map[])

  const RUNNING_BOTH := Server(5, Windows(map[7 := [Entry(3, None)]], map[7 := 2]), false,
                               {5}, map[(7, 1) := None, (7, 3) := None], [Execution(5, FIRST), Execution(5, THIRD)], map[])

  lemma HaltingReports()
    ensures Report([0], 1) == [1] && Report([1], 2) == [2]
  {
    assert Insert([0], 1) == [0] + Insert([], 1) == [0, 1];
    assert Insert([1], 2) == [1] + Insert([], 2) == [1, 2];
    assert [0, 1][1..] == [1] && [1, 2][1..] == [2];
    assert 1 in [0, 1] && 2 in [1, 2];
  }

  lemma HaltingCalls()
    ensures Refusal(FRESH_CLIENT, BIND) == 0 && Begin(FRESH_CLIENT, 7, BIND, []) == BEFORE && End(BEFORE, 1) == ONE_LATE
    ensures Refusal(ONE_LATE, BIND) == 0 && Begin(ONE_LATE, 7, BIND, []) == TWO_CALLED && End(TWO_CALLED, 2) == TWO_LATE
    ensures Refusal(TWO_LATE, BIND) == 0 && Begin(TWO_LATE, 7, BIND, []) == THREE_CALLED
  {
    HaltingReports();
  }

  lemma HaltingServer()
    ensures Accept(FreshServer(5), FIRST) == RUNNING_FIRST && ImmediateReplies(FreshServer(5), FIRST) == {}
    ensures Accept(RUNNING_FIRST, THIRD) == RUNNING_BOTH && ImmediateReplies(RUNNING_FIRST, THIRD) == {}
    ensures !FreshServer(5).halted && Running(RUNNING_BOTH, 7, 1)
    ensures Answered(RUNNING_BOTH, 7, 1, Reply(0, Be32(5))) == RUNNING_BOTH.(halted := true)
  {
    assert Scan([], 1, 0) == (New, [Entry(1, None)]);
    assert [Entry(1, None)][1..] == [] && [Entry(3, None)][1..] == [];
    assert Scan([Entry(1, None)], 3, 2) == (New, [Entry(3, None)]);
    assert SetReply([Entry(3, None)], 1, Reply(0, Be32(5))) == None;
  }

  lemma TimeoutsCanHaltTheServer() returns (states: seq<System>, steps: seq<Step>)
    ensures Behaviour(states, steps) && states[|steps|].server.halted
    ensures forall i :: 0 <= i < |steps| ==> !steps[i].Reboot? && !steps[i].Cancel?
  {
    HaltingCalls();
    HaltingServer();
    hide Begin, End, Accept, Answered, ImmediateReplies, Refusal, FreshServer, Be32, RunTo, Alone;
    var v := View(FRESH_CLIENT, {}, {}, FreshServer(5));
    var r := Starts7(Restarts);
    r := Invokes(r, v, Restarts);
    v := v.(cl := BEFORE);
    r := Transmits(r, v, Restarts, 1);
    v := v.(requests := {} + {FIRST});
    r := Receives(r, v, Restarts, FIRST);
    v := v.(sv := RUNNING_FIRST);
    r := Ends(r, v, Restarts, 1);
    v := v.(cl := ONE_LATE);
    r := Invokes(r, v, Restarts);
    v := v.(cl := TWO_CALLED);
    r := Ends(r, v, Restarts, 2);
    v := v.(cl := TWO_LATE);
    r := Invokes(r, v, Restarts);
    v := v.(cl := THREE_CALLED);
    r := Transmits(r, v, Restarts, 3);
    v := v.(requests := {} + {FIRST} + {THIRD});
    r := Receives(r, v, Restarts, THIRD);
    v := v.(sv := RUNNING_BOTH);
    r := Returns(r, v, Restarts, 1);
    IsRun(r, v.(sv := RUNNING_BOTH.(halted := true)), Restarts);
    states, steps := r.states, r.steps;
  }
}
