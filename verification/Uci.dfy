/** The handlers of the message thread and the search thread, on the real board. */
module Uci {
  import opened Rules
  import opened Boards
  import opened Runs
  import opened Initial
  import opened BoardClass
  import opened MoveText
  import opened GameTree
  import opened Reads
  import opened Search
  import opened Deepening
  import opened Protocol

  /** game_thread: not there, created, searching, or ready to be joined. */
  datatype Phase = Idle | Launched | Running | Ended

  ghost function ThreadOf(phase: Phase, root: BoardData): Thread {
    match phase
    case Idle => NoThread
    case Launched => Started
    case Running => Searching(root)
    case Ended => Finished(root)
  }

  class UciServer {
    var b: Board
    var search: bool
    const engine: BestMove
    var gameThread: Phase
    // the board that the search thread copied
    ghost var root: BoardData
    var stopping: bool

    ghost predicate Valid()
      reads this, b, engine
    {
      b.Valid() && engine.Latest()
    }

    /** Everything that the handlers may change, apart from the server itself. */
    ghost function Repr(): set<object>
      reads this
    {
      b.Repr() + {engine}
    }

    constructor (m: Move)
      ensures Valid() && fresh(Repr()) && IsInitial(b.Data())
      ensures gameThread == Idle && !stopping && engine.value == m
    {
      hide IsInitial;
      b := new Board();
      engine := new BestMove(m);
      search := false;
      gameThread := Idle;
      stopping := false;
    }

    ghost function State(): Server
      reads this, engine, b, b.Repr()
      requires b.Valid()
    {
      Server(b.Data(), search, engine.value, ThreadOf(gameThread, root), stopping)
    }

    /** on_ucinewgame */
    method OnUciNewGame()
      requires Valid() && !stopping
      modifies this`b
      ensures Valid() && fresh(b.Repr()) && Transition(old(State()), NewGame, State())
    {
      hide IsInitial, IsLegal, LegalMoves, AssertsHold, DoMove;
      b := new Board();
    }

    /** on_position */
    method OnPosition(toks: seq<Text>)
      requires Valid() && !stopping && Parses(toks)
      modifies b.Repr()
      ensures Valid() && Transition(old(State()), NewPosition(toks), State())
    {
      hide IsInitial, IsLegal, LegalMoves, AssertsHold, DoMove;
      if |toks| > 3 {
        b.PlayMove(Unpack(StrToMove(toks[|toks| - 1])));
      }
    }

    /** on_go. Assigning to a thread that can still be joined ends the process. */
    method OnGo() returns (alive: bool)
      requires Valid() && !stopping
      modifies this`search, this`gameThread
      ensures Valid()
      ensures if alive then Transition(old(State()), Event.Go, State()) else Aborts(old(State()), Event.Go)
    {
      hide IsInitial, IsLegal, LegalMoves, AssertsHold, DoMove;
      search := true;
      if gameThread != Idle { return false; }
      gameThread := Launched;
      return true;
    }

    /** on_stop, up to the join. Without a thread to join the process ends. */
    method OnStop() returns (alive: bool)
      requires Valid() && !stopping
      modifies this`search, this`stopping
      ensures Valid()
      ensures if alive then Transition(old(State()), StopRequest, State()) else Aborts(old(State()), StopRequest)
    {
      hide IsInitial, IsLegal, LegalMoves, AssertsHold, DoMove;
      search := false;
      if gameThread == Idle { return false; }
      stopping := true;
      return true;
    }

    /** on_stop, from the join on: the two asserts, the move, and the move as text. */
    method AfterJoin() returns (alive: bool, reply: Text)
      requires Valid() && Inv(b.Data()) && stopping && gameThread == Ended
      modifies this`gameThread, this`stopping, b.Repr()
      ensures Valid()
      ensures if alive then Transition(old(State()), Joined, State()) else Aborts(old(State()), Joined)
      ensures alive ==> reply == Said(engine.value)
    {
      hide IsLegal, LegalMoves, Inv, IsInitial;
      gameThread, stopping := Idle, false;
      var move := engine.value;
      var legalMoves := b.GetLegalMoves();
      if |legalMoves| == 0 || move !in legalMoves { return false, []; }
      b.PlayMove(move);
      return true, MoveToStr(Pack(move));
    }

    /** The search thread until it is about to return: find_best_move on a copy of the board. Every
        write to best_move is a step of the protocol. */
    method Think(flag: SearchFlag, eval: Evaluator) returns (ghost ss: seq<Server>, ghost es: seq<Event>)
      requires Valid() && Inv(b.Data()) && gameThread == Launched
      modifies this`gameThread, this`root, flag, engine
      ensures Valid() && gameThread == Running && root == b.Data()
      ensures Trace(ss, es) && ss[0] == old(State()) && ss[|es|] == State()
      ensures es[0] == Copies && forall i :: 1 <= i < |es| ==> es[i].Writes?
      ensures SearchDone(old(engine.log), engine.log, b.Data(), b.player == White, eval, old(flag.budget), flag.budget)
      ensures |old(engine.log)| < |engine.log| ==> IsLegal(Abs(b.Data()), engine.value)
    {
      hide IsLegal, Inv, SearchDone, Transition, Abs;
      ghost var was, before := engine.log, State();
      gameThread := Running;
      root := b.Data();
      FindBestMove(b, flag, engine, eval);
      ss, es := ThinkTrace(before, was, engine.log, root);
      assert ss[|es|] == State();
    }

    /** The search thread returns once the flag is false, or there is nothing to search. */
    method Return()
      requires Valid() && gameThread == Running && Sized(root)
      requires !search || LegalMoves(Abs(root)) == {}
      modifies this`gameThread
      ensures Valid() && Transition(old(State()), Returns, State())
    {
      hide IsInitial, IsLegal, LegalMoves, AssertsHold, DoMove;
      gameThread := Ended;
    }

    /** go, a search that is given enough time for its first root move, stop: whatever else happens,
        the process survives and the board advances by one legal move, which is the reply. */
    method GoThenStop(flag: SearchFlag, eval: Evaluator) returns (alive: bool, reply: Text)
      requires Valid() && KingsSafe(b.Data()) && gameThread == Idle && !stopping
      requires LegalMoves(Abs(b.Data())) != {} && flag.budget > 1 + TriedReads(b.Data(), 1, 1, b.player == White)
      modifies this`search, this`gameThread, this`root, this`stopping, b.Repr(), engine, flag
      ensures Valid() && gameThread == Idle && !stopping && alive
      ensures KingsSafe(b.Data()) && IsLegal(old(Abs(b.Data())), engine.value)
      ensures b.Data() == Flip(DoMove(old(b.Data()), engine.value)) && reply == Said(engine.value)
    {
      hide IsLegal, LegalMoves, Inv, KingsSafe, SearchDone, TriedReads, Flip, DoMove, Abs, IsInitial;
      ghost var d, was := b.Data(), engine.log;
      alive := OnGo();
      ghost var ss, es := Think(flag, eval);
      EnoughForOne(was, engine.log, d, d.player == White, eval, old(flag.budget), flag.budget);
      alive := OnStop();
      Return();
      alive, reply := AfterJoin();
      LegalKeepsKingsSafe(d, engine.value);
    }
  }

  lemma EnoughForOne(was: seq<Publication>, log: seq<Publication>, d: BoardData, maxing: bool, eval: Evaluator,
                     budget: nat, left: nat)
    requires SearchDone(was, log, d, maxing, eval, budget, left)
    requires Inv(d) && LegalMoves(Abs(d)) != {} && budget > 1 + TriedReads(d, 1, 1, maxing)
    ensures |was| < |log|
  {
    hide SearchLog, Deepened, Finals, Completed, RoundsReads, TriedReads, LegalMoves, Abs;
  }

  /** A run of the search thread as steps of the protocol. */
  lemma ThinkTrace(s: Server, was: seq<Publication>, log: seq<Publication>, root: BoardData)
    returns (ss: seq<Server>, es: seq<Event>)
    requires s.thread == Started && Sized(root) && s.b == root && was <= log
    requires forall k :: |was| <= k < |log| ==> IsLegal(Abs(root), log[k].movement)
    ensures Trace(ss, es) && ss[0] == s && es != [] && es[0] == Copies
    ensures forall i :: 1 <= i < |es| ==> es[i].Writes?
    ensures ss[|es|] == s.(thread := Searching(root),
                           best := if |was| < |log| then log[|log| - 1].movement else s.best)
    decreases |log|
  {
    hide IsLegal, Abs, IsInitial, LegalMoves;
    if |was| == |log| {
      ss, es := [s, s.(thread := Searching(root))], [Copies];
    } else {
      var front, last := ThinkTrace(s, was, log[..|log| - 1], root);
      var m := log[|log| - 1].movement;
      var t := front[|last|].(best := m);
      ss, es := front + [t], last + [Writes(m)];
      TraceMore(front, last, Writes(m), t);
    }
  }

  lemma TraceMore(ss: seq<Server>, es: seq<Event>, e: Event, t: Server)
    requires Trace(ss, es) && Transition(ss[|es|], e, t)
    ensures Trace(ss + [t], es + [e])
  {
    hide Transition;
    var more, steps := ss + [t], es + [e];
    forall i | 0 <= i < |steps| ensures Transition(more[i], steps[i], more[i + 1]) {
      if i < |es| { assert Transition(ss[i], es[i], ss[i + 1]); }
    }
  }
}
