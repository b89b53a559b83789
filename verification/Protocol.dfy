/** The message thread and the search thread, step by step, under every interleaving. */
module Protocol {
  import opened Geometry
  import opened Rules
  import opened RuleFacts
  import opened Bytes
  import opened Boards
  import opened BoardFacts
  import opened UndoFacts
  import opened Initial
  import opened Runs
  import opened MoveText

  /** The search thread: created, searching a copy of the board, or ready to be joined. */
  datatype Thread = NoThread | Started | Searching(root: BoardData) | Finished(root: BoardData)

  /** The fields that the two threads share. While a stop waits for the search thread, no other
      message is handled. */
  datatype Server = Server(b: BoardData, search: bool, best: Move, thread: Thread, stopping: bool)

  datatype Event =
    // the message thread
    | NewGame
    | NewPosition(toks: seq<Text>)
    | Go
    | StopRequest
    | Joined
    // the search thread
    | Copies
    | Writes(move: Move)
    | Returns

  predicate Parses(toks: seq<Text>) {
    |toks| > 3 ==> |toks[|toks| - 1]| >= 4
  }

  /** The two asserts of on_stop. */
  ghost predicate AssertsHold(s: Server)
    requires Sized(s.b)
  {
    LegalMoves(Abs(s.b)) != {} && s.best in LegalMoves(Abs(s.b))
  }

  ghost predicate Transition(s: Server, e: Event, t: Server)
    ensures Transition(s, e, t) ==> Sized(s.b)
  {
    Sized(s.b)
    && match e
       case NewGame => !s.stopping && IsInitial(t.b) && t == s.(b := t.b)
       case NewPosition(toks) => !s.stopping && Parses(toks) && t == s.(b := OnPosition(s.b, toks))
       case Go => !s.stopping && s.thread == NoThread && t == s.(search := true, thread := Started)
       case StopRequest => !s.stopping && s.thread != NoThread && t == s.(search := false, stopping := true)
       case Joined =>
         s.stopping && s.thread.Finished? && AssertsHold(s)
         && t == s.(b := Flip(DoMove(s.b, s.best)), thread := NoThread, stopping := false)
       case Copies => s.thread == Started && t == s.(thread := Searching(s.b))
       case Writes(m) =>
         s.thread.Searching? && Sized(s.thread.root) && IsLegal(Abs(s.thread.root), m) && t == s.(best := m)
       case Returns =>
         s.thread.Searching? && Sized(s.thread.root)
         && (!s.search || LegalMoves(Abs(s.thread.root)) == {})
         && t == s.(thread := Finished(s.thread.root))
  }

  /** The events that end the process: a thread that is still joinable is overwritten, there is no
      thread to join, or an assert fails. */
  ghost predicate Aborts(s: Server, e: Event) {
    match e
    case Go => !s.stopping && s.thread != NoThread
    case StopRequest => !s.stopping && s.thread == NoThread
    case Joined => s.stopping && s.thread.Finished? && Sized(s.b) && !AssertsHold(s)
    case _ => false
  }

  /** The states that a sequence of events leads through. */
  ghost predicate Trace(ss: seq<Server>, es: seq<Event>) {
    |ss| == |es| + 1 && forall i :: 0 <= i < |es| ==> Transition(ss[i], es[i], ss[i + 1])
  }

  // ---------------------------------------------------------------- from go to stop

  /** What may happen after go and before the join, if no position or ucinewgame arrives. */
  predicate Quiet(e: Event) {
    e == StopRequest || e == Copies || e.Writes? || e == Returns
  }

  /** Between a go and a join, without a position or ucinewgame. */
  ghost predicate QuietWindow(ss: seq<Server>, es: seq<Event>)
    ensures QuietWindow(ss, es) ==> |ss| == |es| + 1 && |es| > 0 && Inv(ss[0].b)
  {
    Trace(ss, es) && |es| > 0 && es[0] == Go && Inv(ss[0].b)
    && forall i :: 1 <= i < |es| ==> Quiet(es[i])
  }

  predicate WroteBefore(es: seq<Event>, n: nat) {
    exists i :: 0 <= i < n && i < |es| && es[i].Writes?
  }

  /** What holds at every moment of a window. */
  ghost predicate WindowState(first: Server, s: Server, wrote: bool)
    requires Sized(first.b)
  {
    s.b == first.b
    && s.thread in {Started, Searching(first.b), Finished(first.b)}
    && (s.thread == Started ==> !wrote)
    && (if wrote then IsLegal(Abs(first.b), s.best) else s.best == first.best)
  }

  lemma WindowStep(first: Server, s: Server, e: Event, t: Server, wrote: bool)
    requires Sized(first.b) && WindowState(first, s, wrote) && Quiet(e) && Transition(s, e, t)
    ensures WindowState(first, t, wrote || e.Writes?)
  {
    hide IsLegal, Sized, Abs, DoMove, Flip;
  }

  lemma WroteNext(es: seq<Event>, n: nat)
    requires n < |es|
    ensures WroteBefore(es, n + 1) <==> WroteBefore(es, n) || es[n].Writes?
  {
    if es[n].Writes? { assert WroteBefore(es, n + 1); }
  }

  lemma {:induction false} WindowInvariant(ss: seq<Server>, es: seq<Event>, n: nat)
    requires QuietWindow(ss, es) && 1 <= n <= |es|
    ensures WindowState(ss[0], ss[n], WroteBefore(es, n))
  {
    hide WindowState, Transition, Inv, WroteBefore;
    if n == 1 {
      assert Transition(ss[0], es[0], ss[1]);
      FirstWindowState(ss[0], ss[1], es);
    } else {
      WindowInvariant(ss, es, n - 1);
      WindowStep(ss[0], ss[n - 1], es[n - 1], ss[n], WroteBefore(es, n - 1));
      WroteNext(es, n - 1);
    }
  }

  lemma FirstWindowState(s: Server, t: Server, es: seq<Event>)
    requires |es| > 0 && es[0] == Go && Transition(s, Go, t)
    ensures WindowState(s, t, WroteBefore(es, 1))
  {
    hide IsLegal;
  }

  /** When on_stop has joined the search thread at the end of a window, the searched root is the
      server's board, and the two asserts hold exactly when something was written since the go or
      the move left over from before happens to be legal. */
  lemma StopAsserts(ss: seq<Server>, es: seq<Event>)
    requires QuietWindow(ss, es)
    requires var s := ss[|es|]; s.stopping && s.thread.Finished?
    ensures var s := ss[|es|];
      s.b == ss[0].b && s.thread.root == s.b
      && (AssertsHold(s) <==> WroteBefore(es, |es|) || IsLegal(Abs(s.b), ss[0].best))
  {
    hide IsLegal, LegalMoves, Transition, Inv, WroteBefore;
    WindowInvariant(ss, es, |es|);
  }

  /** If the search wrote something, the stop cannot abort, and the board advances by exactly one
      legal move. */
  lemma StopAdvances(ss: seq<Server>, es: seq<Event>)
    requires QuietWindow(ss, es) && WroteBefore(es, |es|)
    requires var s := ss[|es|]; s.stopping && s.thread.Finished?
    ensures var s := ss[|es|];
      !Aborts(s, Joined) && IsLegal(Abs(ss[0].b), s.best)
      && forall t :: Transition(s, Joined, t) <==>
           t == s.(b := Flip(DoMove(ss[0].b, s.best)), thread := NoThread, stopping := false)
  {
    hide IsLegal, LegalMoves, Inv, WroteBefore, Flip, DoMove, QuietWindow;
    StopAsserts(ss, es);
  }

  /** A stop that comes before the search has written anything: nothing in the protocol keeps the
      left-over move from being illegal, and then the process ends. */
  lemma StopBeforeAnyWrite(s: Server) returns (ss: seq<Server>, es: seq<Event>)
    requires Inv(s.b) && s.thread == NoThread && !s.stopping && !IsLegal(Abs(s.b), s.best)
    ensures QuietWindow(ss, es) && ss[0] == s && Aborts(ss[|es|], Joined)
  {
    hide IsLegal, Inv, LegalMoves;
    var s1 := s.(search := true, thread := Started);
    var s2 := s1.(search := false, stopping := true);
    var s3 := s2.(thread := Searching(s.b));
    var s4 := s3.(thread := Finished(s.b));
    ss := [s, s1, s2, s3, s4];
    es := [Go, StopRequest, Copies, Returns];
  }

  // ---------------------------------------------------------------- the thread and the flag

  lemma {:induction false} ThreadStays(ss: seq<Server>, es: seq<Event>, n: int)
    requires OpenWindow(ss, es) && 1 <= n <= |es|
    ensures ss[n].thread != NoThread
    decreases n
  {
    hide Transition;
    assert Transition(ss[n - 1], es[n - 1], ss[n]);
    if n == 1 {
      GoStarts(ss[0], ss[1]);
    } else {
      ThreadStays(ss, es, n - 1);
      OpenStep(ss[n - 1], es[n - 1], ss[n]);
    }
  }

  /** From a go to its join, under every interleaving, a second go ends the process, and nothing
      else can come of it. */
  lemma SecondGo(ss: seq<Server>, es: seq<Event>, n: int)
    requires OpenWindow(ss, es) && 1 <= n <= |es| && !ss[n].stopping
    ensures Aborts(ss[n], Go) && forall t :: !Transition(ss[n], Go, t)
  {
    hide IsLegal, LegalMoves, IsInitial, Abs, DoMove;
    ThreadStays(ss, es, n);
  }

  /** Without a go, a stop ends the process, and with one it does not. */
  lemma StopNeedsThread(s: Server)
    requires Sized(s.b) && !s.stopping
    ensures Aborts(s, StopRequest) <==> s.thread == NoThread
    ensures (exists t :: Transition(s, StopRequest, t)) <==> s.thread != NoThread
    ensures Aborts(s, Go) <==> s.thread != NoThread
    ensures (exists t :: Transition(s, Go, t)) <==> s.thread == NoThread
  {
    hide IsLegal, LegalMoves, IsInitial, Abs, DoMove;
    if s.thread != NoThread {
      assert Transition(s, StopRequest, s.(search := false, stopping := true));
    } else {
      assert Transition(s, Go, s.(search := true, thread := Started));
    }
  }

  /** The flag is up from the go to the stop, and down from then on. */
  lemma {:induction false} FlagStays(ss: seq<Server>, es: seq<Event>, n: int)
    requires OpenWindow(ss, es) && 1 <= n <= |es|
    ensures ss[n].search <==> !ss[n].stopping
    ensures ss[n].stopping <==> exists k :: 1 <= k < n && es[k] == StopRequest
    decreases n
  {
    hide Transition;
    assert Transition(ss[n - 1], es[n - 1], ss[n]);
    if n == 1 {
      GoRaisesFlag(ss[0], ss[1]);
    } else {
      FlagStays(ss, es, n - 1);
      FlagStep(ss[n - 1], es[n - 1], ss[n]);
    }
  }

  lemma GoRaisesFlag(s: Server, t: Server)
    requires Transition(s, Go, t)
    ensures t.search && !t.stopping
  {
    hide IsLegal, LegalMoves, IsInitial, Abs, DoMove;
  }

  lemma FlagStep(s: Server, e: Event, t: Server)
    requires Transition(s, e, t) && e != Go && e != Joined
    ensures e == StopRequest ==> !t.search && t.stopping
    ensures e != StopRequest ==> t.search == s.search && t.stopping == s.stopping
  {
    hide IsLegal, LegalMoves, IsInitial, Abs, DoMove;
  }

  /** Before a stop the search thread only returns if there is no legal move. */
  lemma {:induction false} ReturnsWhenStopped(ss: seq<Server>, es: seq<Event>, n: int)
    requires OpenWindow(ss, es) && 1 <= n <= |es| && ss[n].thread.Finished? && !ss[n].stopping
    ensures Sized(ss[n].thread.root) && LegalMoves(Abs(ss[n].thread.root)) == {}
    decreases n
  {
    hide Transition, LegalMoves, Abs;
    assert Transition(ss[n - 1], es[n - 1], ss[n]);
    GoStarts(ss[0], ss[1]);
    assert Transition(ss[0], es[0], ss[1]);
    FlagStays(ss, es, n - 1);
    FinishStep(ss[n - 1], es[n - 1], ss[n]);
    if ss[n - 1].thread.Finished? { ReturnsWhenStopped(ss, es, n - 1); }
  }

  lemma FinishStep(s: Server, e: Event, t: Server)
    requires Transition(s, e, t) && e != Go && e != Joined && t.thread.Finished?
    ensures !t.stopping ==> !s.stopping
    ensures s.thread == t.thread
         || (s.thread.Searching? && s.thread.root == t.thread.root && Sized(s.thread.root)
             && (!s.search || LegalMoves(Abs(s.thread.root)) == {}))
  {
    hide IsLegal, LegalMoves, IsInitial, Abs, DoMove;
  }

  /** What a position message does: nothing with up to three tokens, and otherwise the move that its
      last token says. */
  lemma PositionRule(d: BoardData, toks: seq<Text>, m: Move)
    requires Sized(d) && (|toks| > 3 ==> Says(toks[|toks| - 1], m))
    ensures OnPosition(d, toks) == if |toks| <= 3 then d else Flip(DoMove(d, m))
  {
    hide Heard, DoMove, Flip;
    if |toks| > 3 { HeardRule(toks[|toks| - 1], m); }
  }

  // ---------------------------------------------------------------- messages during the search

  /** Between a go and a join anything may happen but another go or join. */
  ghost predicate OpenWindow(ss: seq<Server>, es: seq<Event>)
    ensures OpenWindow(ss, es) ==> |ss| == |es| + 1 && |es| > 0
  {
    Trace(ss, es) && |es| > 0 && es[0] == Go && forall i :: 1 <= i < |es| ==> es[i] != Go && es[i] != Joined
  }

  /** A message that replaces the board or plays a move on it. */
  predicate Plays(e: Event) {
    e == NewGame || (e.NewPosition? && |e.toks| > 3)
  }

  /** The search thread takes its copy in step c. */
  predicate CopiedAt(es: seq<Event>, c: int) {
    1 <= c < |es| && es[c] == Copies
  }

  /** What a step between go and join does to the thread, the board and best_move. */
  lemma OpenStep(s: Server, e: Event, t: Server)
    requires Transition(s, e, t) && e != Go && e != Joined
    ensures Sized(s.b) && (!Plays(e) ==> t.b == s.b)
    ensures e != Copies && !s.thread.Searching? ==> t.thread == s.thread
    ensures s.thread.Searching? ==> t.thread == s.thread || t.thread == Finished(s.thread.root)
    ensures e == Copies ==> s.thread == Started && t.thread == Searching(s.b)
    ensures e.Writes? ==> s.thread.Searching? && Sized(s.thread.root) && IsLegal(Abs(s.thread.root), e.move)
    ensures t.best == if e.Writes? then e.move else s.best
  {
    hide IsLegal, IsInitial, LegalMoves, Abs, Heard, DoMove;
  }

  /** The searched root is the board as it was when the thread took its copy. */
  lemma {:induction false} RootIsCopy(ss: seq<Server>, es: seq<Event>, c: int, n: int)
    requires OpenWindow(ss, es) && CopiedAt(es, c) && c < n <= |es|
    ensures ss[n].thread == Searching(ss[c].b) || ss[n].thread == Finished(ss[c].b)
    ensures Sized(ss[c].b)
    decreases n
  {
    hide Transition;
    OpenStep(ss[n - 1], es[n - 1], ss[n]);
    if n > c + 1 { RootIsCopy(ss, es, c, n - 1); }
  }

  /** Nothing is written before the copy is taken. */
  lemma {:induction false} CopyComesFirst(ss: seq<Server>, es: seq<Event>, n: int) returns (c: int)
    requires OpenWindow(ss, es) && 1 <= n <= |es| && ss[n].thread != Started
    ensures CopiedAt(es, c) && c < n
    decreases n
  {
    hide Transition;
    assert Transition(ss[0], es[0], ss[1]);
    GoStarts(ss[0], ss[1]);
    OpenStep(ss[n - 1], es[n - 1], ss[n]);
    if es[n - 1] == Copies { c := n - 1; } else { c := CopyComesFirst(ss, es, n - 1); }
  }

  lemma GoStarts(s: Server, t: Server)
    ensures Transition(s, Go, t) ==> t.thread == Started
  {
    hide IsLegal, IsInitial, LegalMoves, Abs, OnPosition, AssertsHold;
  }

  lemma {:induction false} SameBoardBetween(ss: seq<Server>, es: seq<Event>, i: int, j: int)
    requires OpenWindow(ss, es) && 1 <= i <= j <= |es|
    requires forall k :: i <= k < j ==> !Plays(es[k])
    ensures ss[j].b == ss[i].b
    decreases j
  {
    hide Transition;
    if i < j {
      OpenStep(ss[j - 1], es[j - 1], ss[j]);
      SameBoardBetween(ss, es, i, j - 1);
    }
  }

  /** What was written last is legal for the searched root. */
  lemma {:induction false} WrittenIsLegal(ss: seq<Server>, es: seq<Event>, c: int, n: int)
    requires OpenWindow(ss, es) && CopiedAt(es, c) && c < n <= |es| && WroteBefore(es, n)
    ensures Sized(ss[c].b) && IsLegal(Abs(ss[c].b), ss[n].best)
    decreases n
  {
    hide Transition, IsLegal, Abs;
    var w :| 0 <= w < n && w < |es| && es[w].Writes?;
    OpenStep(ss[n - 1], es[n - 1], ss[n]);
    RootIsCopy(ss, es, c, n);
    WritesComeLater(ss, es, c, w);
    if es[n - 1].Writes? {
      RootIsCopy(ss, es, c, n - 1);
    } else {
      assert WroteBefore(es, n - 1);
      WrittenIsLegal(ss, es, c, n - 1);
    }
  }

  lemma WritesComeLater(ss: seq<Server>, es: seq<Event>, c: int, w: int)
    requires OpenWindow(ss, es) && CopiedAt(es, c) && 0 <= w < |es| && es[w].Writes?
    ensures c < w
  {
    hide Transition;
    OpenStep(ss[w], es[w], ss[w + 1]);
    OpenStep(ss[c], es[c], ss[c + 1]);
    if w < c {
      var c' := CopyComesFirst(ss, es, w);
      RootIsCopy(ss, es, c', c);
    }
  }

  /** Among the steps from i up to j an odd number play on the board. */
  predicate OddlyPlayed(es: seq<Event>, i: int, j: int)
    requires 0 <= i && j <= |es|
    decreases j
  {
    i < j && OddlyPlayed(es, i, j - 1) != Plays(es[j - 1])
  }

  lemma {:induction false} TurnsPass(ss: seq<Server>, es: seq<Event>, i: int, j: int)
    requires OpenWindow(ss, es) && 1 <= i <= j <= |es|
    requires forall k :: i <= k < j ==> es[k] != NewGame
    ensures ss[j].b.player == if OddlyPlayed(es, i, j) then Opp(ss[i].b.player) else ss[i].b.player
    decreases j
  {
    hide Transition, Plays;
    if i < j {
      TurnsPass(ss, es, i, j - 1);
      TurnStep(ss[j - 1], es[j - 1], ss[j]);
    }
  }

  lemma TurnStep(s: Server, e: Event, t: Server)
    requires Transition(s, e, t) && e != Go && e != Joined && e != NewGame
    ensures t.b.player == if Plays(e) then Opp(s.b.player) else s.b.player
  {
    hide Transition;
    OpenStep(s, e, t);
    if Plays(e) { PositionPasses(s, e.toks, t); }
  }

  lemma PositionPasses(s: Server, toks: seq<Text>, t: Server)
    requires Transition(s, NewPosition(toks), t) && |toks| > 3
    ensures Sized(s.b) && |toks[|toks| - 1]| >= 4 && t.b == Flip(DoMove(s.b, Heard(toks[|toks| - 1])))
    ensures t.b.player == Opp(s.b.player)
  {
    hide Heard, MovedSlots, Moved64, LastIndexOf, IsLegal, IsInitial, LegalMoves, AssertsHold;
  }

  /** When the search has been joined, the searched root is the board if no message has played on
      it since the copy was taken, and is not if an odd number of positions have. (An even number
      can go either way: see PositionsCanCancel.) */
  lemma RootIsBoard(ss: seq<Server>, es: seq<Event>, c: int)
    requires OpenWindow(ss, es) && CopiedAt(es, c)
    ensures ss[|es|].thread.Searching? || ss[|es|].thread.Finished?
    ensures (forall k :: c < k < |es| ==> !Plays(es[k])) ==> ss[|es|].thread.root == ss[|es|].b
    ensures (forall k :: c < k < |es| ==> es[k] != NewGame) && OddlyPlayed(es, c + 1, |es|) ==>
      ss[|es|].thread.root != ss[|es|].b
  {
    hide Transition;
    RootIsCopy(ss, es, c, |es|);
    OpenStep(ss[c], es[c], ss[c + 1]);
    if forall k :: c < k < |es| ==> !Plays(es[k]) { SameBoardBetween(ss, es, c + 1, |es|); }
    if forall k :: c < k < |es| ==> es[k] != NewGame { TurnsPass(ss, es, c + 1, |es|); }
  }

  /** After any move o at all, legal or not, a move m that was legal before is not legal any more,
      unless o put another piece where m starts. */
  lemma OutOfTurn(d: BoardData, o: Move, m: Move)
    requires Sized(d) && IsLegal(Abs(d), m) && o.to != m.from
    ensures !IsLegal(Abs(Flip(DoMove(d, o))), m)
  {
    hide Targets, InCheck, LastIndexOf, MovedSlots, Decode, PromoteByte;
    var piece := PromoteByte(d.b0[Index(o.from)], o.promo);
    PutAt(d.b0, o.to, piece, m.from);
    PutAt(Put(d.b0, o.to, piece), o.from, 0, m.from);
  }

  /** A move of the side to move never ends where another of its moves starts. */
  lemma PseudoLeavesOwn(p: Position, o: Move, m: Move)
    requires IsPseudo(p.cells, p.player, o) && IsLegal(p, m)
    ensures o.to != m.from
  {
    hide Targets, InCheck;
    PseudoShape(p.cells, p.player, o);
  }

  /** o puts a piece where m starts, and m is a legal move of that piece. on_position does not check
      its move, so a message can do this. */
  ghost predicate Intrudes(d: BoardData, o: Move, m: Move)
    requires Sized(d)
  {
    o.to == m.from && IsLegal(Abs(Flip(DoMove(d, o))), m)
  }

  /** Only a message that moves a piece of the side not to move can do this. */
  lemma IntruderIsHostile(d: BoardData, o: Move, m: Move)
    requires Inv(d) && Movable(d, o) && Intrudes(d, o, m)
    ensures Owns(Abs(d).cells, o.from, Opp(d.player)) && !IsPseudo(Abs(d).cells, d.player, o)
  {
    hide Inv, InCheck, Targets, CellsOf, Moved64, Put, LastIndexOf, MovedSlots, Movable;
    MovedCells(d, o);
    CellAt(d.b0, o.from);
    MovableStarts(d, o);
  }

  lemma MovableStarts(d: BoardData, o: Move)
    requires Sized(d) && Movable(d, o)
    ensures d.b0[Index(o.from)] != 0 && o.from != o.to
  {
  }

  /** In every interleaving in which the search writes at least once, and in which exactly one
      message plays on the board after the search took its copy, the assert of on_stop fails, unless
      that message intrudes. A pseudolegal message never does. */
  lemma StopAfterPosition(ss: seq<Server>, es: seq<Event>, c: int, q: int, o: Move)
    requires OpenWindow(ss, es) && CopiedAt(es, c) && WroteBefore(es, |es|)
    requires c < q < |es| && es[q].NewPosition? && SaysMove(es[q].toks, o)
    requires forall k :: c < k < |es| && k != q ==> !Plays(es[k])
    requires var s := ss[|es|]; s.stopping && s.thread.Finished?
    ensures Sized(ss[c].b) && IsLegal(Abs(ss[c].b), ss[|es|].best)
    ensures Aborts(ss[|es|], Joined) <==> !Intrudes(ss[c].b, o, ss[|es|].best)
    ensures IsPseudo(Abs(ss[c].b).cells, ss[c].b.player, o) ==> Aborts(ss[|es|], Joined)
  {
    hide Transition, IsLegal, LegalMoves, IsPseudo, Abs, Heard, DoMove, Flip;
    WrittenIsLegal(ss, es, c, |es|);
    OpenStep(ss[c], es[c], ss[c + 1]);
    SameBoardBetween(ss, es, c + 1, q);
    PositionPasses(ss[q], es[q].toks, ss[q + 1]);
    SameBoardBetween(ss, es, q + 1, |es|);
    DecidesOn(ss[c].b, o, ss[|es|]);
  }

  lemma DecidesOn(d: BoardData, o: Move, u: Server)
    requires Sized(d) && IsLegal(Abs(d), u.best)
    requires u.b == Flip(DoMove(d, o)) && u.stopping && u.thread.Finished?
    ensures Aborts(u, Joined) <==> !Intrudes(d, o, u.best)
    ensures IsPseudo(Abs(d).cells, d.player, o) ==> Aborts(u, Joined)
  {
    hide IsLegal, LegalMoves, IsPseudo, DoMove;
    if IsPseudo(Abs(d).cells, d.player, o) { PseudoLeavesOwn(Abs(d), o, u.best); }
    if o.to != u.best.from { OutOfTurn(d, o, u.best); }
  }

  /** Such an interleaving exists from every resting server, for every legal move found and every
      position message, and the same condition decides it. */
  lemma PositionDuringSearch(s: Server, m: Move, o: Move, toks: seq<Text>) returns (ss: seq<Server>, es: seq<Event>)
    requires Sized(s.b) && s.thread == NoThread && !s.stopping && IsLegal(Abs(s.b), m) && SaysMove(toks, o)
    ensures OpenWindow(ss, es) && ss[0] == s && es == [Go, Copies, Writes(m), NewPosition(toks), StopRequest, Returns]
    ensures Aborts(ss[|es|], Joined) <==> !Intrudes(s.b, o, m)
    ensures IsPseudo(Abs(s.b).cells, s.b.player, o) ==> Aborts(ss[|es|], Joined)
  {
    hide IsLegal, LegalMoves, IsPseudo, Heard, DoMove, Flip, Abs, Intrudes;
    var s1 := s.(search := true, thread := Started);
    var s2 := s1.(thread := Searching(s.b));
    var s3 := s2.(best := m);
    var s4 := s3.(b := OnPosition(s.b, toks));
    var s5 := s4.(search := false, stopping := true);
    var s6 := s5.(thread := Finished(s.b));
    ss := [s, s1, s2, s3, s4, s5, s6];
    es := [Go, Copies, Writes(m), NewPosition(toks), StopRequest, Returns];
    DecidesOn(s.b, o, s6);
  }

  /** Two position messages can cancel out: then the root is the board again, and the assert holds
      although the board was played on. */
  lemma PositionsCanCancel(s: Server, m: Move, o: Move, r: Move, there: seq<Text>, back: seq<Text>)
    returns (ss: seq<Server>, es: seq<Event>)
    requires Inv(s.b) && s.thread == NoThread && !s.stopping && IsLegal(Abs(s.b), m)
    requires SaysMove(there, o) && SaysMove(back, r) && ThereAndBack(s.b, o, r)
    ensures OpenWindow(ss, es) && ss[0] == s && WroteBefore(es, |es|)
    ensures es == [Go, Copies, Writes(m), NewPosition(there), NewPosition(back), StopRequest, Returns]
    ensures ss[|es|].b == s.b && ss[|es|].thread == Finished(s.b) && ss[|es|].stopping
    ensures !Aborts(ss[|es|], Joined)
  {
    hide IsLegal, LegalMoves, IsPseudo, Heard, DoMove, Flip, Abs, Inv;
    Cancels(s.b, o, r);
    var s1 := s.(search := true, thread := Started);
    var s2 := s1.(thread := Searching(s.b));
    var s3 := s2.(best := m);
    var s4 := s3.(b := OnPosition(s.b, there));
    var s5 := s4.(b := OnPosition(s4.b, back));
    var s6 := s5.(search := false, stopping := true);
    var s7 := s6.(thread := Finished(s.b));
    ss := [s, s1, s2, s3, s4, s5, s6, s7];
    es := [Go, Copies, Writes(m), NewPosition(there), NewPosition(back), StopRequest, Returns];
    assert es[2].Writes?;
    HoldsOn(s7);
  }

  lemma HoldsOn(u: Server)
    requires Sized(u.b) && IsLegal(Abs(u.b), u.best)
    ensures !Aborts(u, Joined)
  {
    hide IsLegal, LegalMoves;
  }

  /** The tokens are those of a position message that plays m. */
  predicate SaysMove(toks: seq<Text>, m: Move) {
    |toks| > 3 && |toks[|toks| - 1]| >= 4 && Heard(toks[|toks| - 1]) == m
  }

  /** A piece goes to an empty square and comes back, on a board without undo information. */
  ghost predicate ThereAndBack(d: BoardData, o: Move, r: Move) {
    Inv(d) && d.killed == 0 && d.killedIdx == -1 && Movable(d, o) && o.promo == NoPromo
    && d.b0[Index(o.to)] == 0 && r == Move(o.to, o.from, NoPromo)
  }

  lemma Moved64Back(b: seq<bv8>, from: Square, to: Square)
    requires |b| == 64 && from != to && b[Index(to)] == 0
    ensures Moved64(b, from, to, b[Index(from)])[Index(to)] == b[Index(from)]
    ensures Moved64(Moved64(b, from, to, b[Index(from)]), to, from, b[Index(from)]) == b
  {
    var piece := b[Index(from)];
    var there := Moved64(b, from, to, piece);
    Moved64At(b, from, to, piece, to);
    forall s: Square ensures Moved64(there, to, from, piece)[Index(s)] == b[Index(s)] {
      Moved64At(b, from, to, piece, s);
      Moved64At(there, to, from, piece, s);
    }
    Same64(Moved64(there, to, from, piece), b);
  }

  lemma SlotsBack(slots: seq<Square>, m: Move, i: int)
    requires SlotsMove(slots, m, i, -1)
    ensures LastIndexOf(MovedSlots(slots, m), m.from) == -1
    ensures MovedSlots(MovedSlots(slots, m), Move(m.to, m.from, NoPromo)) == slots
  {
    MovedSlotsAre(slots, m, i, -1);
  }

  lemma Cancels(d: BoardData, o: Move, r: Move)
    requires ThereAndBack(d, o, r)
    ensures Flip(DoMove(Flip(DoMove(d, o)), r)) == d
  {
    hide Inv, MovedSlots, Moved64, LastIndexOf, SlotsMove, Put, CellsOf;
    MovableMoves(d, o);
    var i, v := SlotsOf(d, o);
    SlotsBack(d.slots, o, i);
    RotatedAt(d, o.from);
    RotNotEqual(R90, o.from, o.to);
    RotNotEqual(R180, o.from, o.to);
    RotNotEqual(R270, o.from, o.to);
    Moved64Back(d.b0, o.from, o.to);
    Moved64Back(d.b90, Rot(R90, o.from), Rot(R90, o.to));
    Moved64Back(d.b180, Rot(R180, o.from), Rot(R180, o.to));
    Moved64Back(d.b270, Rot(R270, o.from), Rot(R270, o.to));
  }

  lemma RotatedAt(d: BoardData, s: Square)
    requires Inv(d)
    ensures d.b90[Index(Rot(R90, s))] == d.b180[Index(Rot(R180, s))] == d.b270[Index(Rot(R270, s))] == d.b0[Index(s)]
  {
    hide WellFormedBoard, LiveSlotsFit, LiveSlotsDistinct, Covered;
  }

  /** A position message keeps the representation invariant as long as it moves a piece from one
      ring square to another and promotes nothing but a pawn, legal or not. */
  lemma PositionKeepsInv(d: BoardData, toks: seq<Text>, o: Move)
    requires Inv(d) && SaysMove(toks, o) && Movable(d, o)
    ensures Inv(OnPosition(d, toks))
  {
    hide Inv, Movable, DoMove, Heard;
    MovableKeepsInv(d, o);
    FlipInv(DoMove(d, o));
  }

  // ---------------------------------------------------------------- whole sessions

  /** One exchange with the client: a legal move of the opponent, or a complete go ... stop with
      at least one result. */
  datatype Exchange = OpponentMoves(toks: seq<Text>) | EngineMoves(states: seq<Server>, events: seq<Event>)

  ghost predicate Exchanged(s: Server, x: Exchange, t: Server) {
    match x
    case OpponentMoves(toks) =>
      Transition(s, NewPosition(toks), t) && |toks| > 3 && IsLegal(Abs(s.b), Heard(toks[|toks| - 1]))
    case EngineMoves(ss, es) =>
      QuietWindow(ss, es) && WroteBefore(es, |es|) && ss[0] == s && Transition(ss[|es|], Joined, t)
  }

  ghost predicate Resting(s: Server)
    ensures Resting(s) ==> Sized(s.b) && KingsSafe(s.b)
  {
    KingsSafe(s.b) && s.thread == NoThread && !s.stopping
  }

  lemma ExchangeIsLegal(s: Server, x: Exchange, t: Server) returns (m: Move)
    requires Resting(s) && Exchanged(s, x, t)
    ensures IsLegal(Abs(s.b), m) && t.b == Flip(DoMove(s.b, m)) && Resting(t)
  {
    hide IsLegal, Inv, LegalMoves, WroteBefore, Flip, DoMove, QuietWindow, KingsSafe, Heard, AssertsHold;
    match x {
      case OpponentMoves(toks) =>
        m := Heard(toks[|toks| - 1]);
      case EngineMoves(ss, es) =>
        var j := ss[|es|];
        StopAdvances(ss, es);
        m := t.best;
    }
    LegalKeepsKingsSafe(s.b, m);
  }

  /** Every session of such exchanges is a game of legal moves, in which no king is ever taken. */
  lemma {:induction false} SessionIsLegalGame(ss: seq<Server>, xs: seq<Exchange>) returns (ms: seq<Move>)
    requires |ss| == |xs| + 1 && Resting(ss[0])
    requires forall i :: 0 <= i < |xs| ==> Exchanged(ss[i], xs[i], ss[i + 1])
    ensures |ms| == |xs| && LegalRun(Abs(ss[0].b), ms)
    ensures ss[|xs|].b == Played(ss[0].b, ms) && Resting(ss[|xs|])
    decreases |xs|
  {
    hide IsLegal, Exchanged, Flip, DoMove, KingsSafe, Resting, Apply, Abs;
    if xs == [] {
      ms := [];
    } else {
      var m := ExchangeIsLegal(ss[0], xs[0], ss[1]);
      LegalPlayRefines(ss[0].b, m);
      forall i | 0 <= i < |xs| - 1 ensures Exchanged(ss[1..][i], xs[1..][i], ss[1..][i + 1]) {
        assert Exchanged(ss[i + 1], xs[i + 1], ss[i + 2]);
      }
      var rest := SessionIsLegalGame(ss[1..], xs[1..]);
      ms := [m] + rest;
      assert ms[0] == m && ms[1..] == rest;
    }
  }
}
