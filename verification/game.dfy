/** The game loop: levels are played in order from 1; a passed level
    advances, a failed one is retried or ends the game; the game is won once
    the level passes the maximum. */
module Game {
  import opened Text
  import opened Grading
  import opened Levels

  const MaxLevel: int := 10

  /** Score and current level; the maximum level is the constant above. */
  datatype GameState = GameState(score: nat, level: int)

  function Start(): (st: GameState)
    ensures st.score == 0 && st.level == 1
  {
    GameState(0, 1)
  }

  predicate InBounds(st: GameState) {
    1 <= st.level <= MaxLevel + 1
  }

  /** The inputs one pass through the loop consumes: the sampled kinds, the
      draws and replies of its puzzles, and the answer to the retry prompt
      (read only if the level is failed). */
  datatype Round = Round(kinds: seq<Kind>, draws: seq<Draws>, replies: seq<Reply>, retry: string)

  /** Whether the answer to the retry prompt continues the game: "y" or
      "yes" in any case, spelled out a character at a time, with nothing
      stripped. */
  predicate WantsRetry(answer: string) {
    || (|answer| == 1 && LowerChar(answer[0]) == 'y')
    || (|answer| == 3 && LowerChar(answer[0]) == 'y' && LowerChar(answer[1]) == 'e'
                      && LowerChar(answer[2]) == 's')
  }

  /** The character-wise test is the lower-cased answer being one of the two
      accepted words. */
  lemma WantsRetryIsLowerIn(answer: string)
    ensures WantsRetry(answer) <==> Lower(answer) in ["y", "yes"]
  {
    var l := Lower(answer);
    if |answer| == 1 {
      assert l == "y" <==> l[0] == 'y';
    } else if |answer| == 3 {
      assert l == "yes" <==> l[0] == 'y' && l[1] == 'e' && l[2] == 's';
    } else {
      assert l != "y" && l != "yes";
    }
  }

  /** Case does not matter, surrounding spaces and other words do. */
  lemma RetryAnswers()
    ensures WantsRetry("Y") && WantsRetry("yes") && WantsRetry("YeS")
    ensures !WantsRetry(" y") && !WantsRetry("yes ") && !WantsRetry("n") && !WantsRetry("")
  {
  }

  /** The state after one round, and whether the player declined to retry. */
  datatype Step = Step(next: GameState, declined: bool)

  /** One pass through the loop body at a level not above the maximum. The
      level rises by one exactly when the level is passed and never changes
      otherwise; the score becomes the level's final score, which never falls;
      the loop is left early exactly when the level was failed and the retry
      declined. */
  function PlayRound(st: GameState, rd: Round): (s: Step)
    requires InBounds(st) && st.level <= MaxLevel
    requires LevelInputs(st.level, rd.kinds, rd.draws, rd.replies)
    ensures InBounds(s.next)
    ensures s.next.score >= st.score
    ensures s.next.score == LevelOutcome(st.level, rd.kinds, rd.draws, rd.replies, st.score).score
    ensures s.next.level == st.level + 1 || s.next.level == st.level
    ensures s.next.level == st.level + 1 <==>
      LevelOutcome(st.level, rd.kinds, rd.draws, rd.replies, st.score).passed
    ensures s.declined <==> s.next.level == st.level && !WantsRetry(rd.retry)
  {
    var r := LevelOutcome(st.level, rd.kinds, rd.draws, rd.replies, st.score);
    if r.passed then Step(GameState(r.score, st.level + 1), false)
    else Step(GameState(r.score, st.level), !WantsRetry(rd.retry))
  }

  /** The rounds suit the levels they are played at: each round's sample and
      draws fit the level the game has reached when it is played. */
  predicate Scripted(st: GameState, rounds: seq<Round>)
    decreases |rounds|
  {
    && InBounds(st)
    && (st.level <= MaxLevel && rounds != [] ==>
          LevelInputs(st.level, rounds[0].kinds, rounds[0].draws, rounds[0].replies)
          && var s := PlayRound(st, rounds[0]);
             (s.declined || Scripted(s.next, rounds[1..])))
  }

  /** Won: the level passed the maximum. Quit: a retry was declined.
      Waiting: the rounds ran out while the game still expects input. */
  datatype Status = Won | Quit | Waiting

  datatype Session = Session(state: GameState, status: Status, played: nat)

  /** Runs the loop over the scripted rounds. The level stays within
      `1..MaxLevel + 1` and rises by at most one per round played, the score
      never falls, and the game is won exactly when the level passes the
      maximum; it is quit only on a round whose retry answer declines. */
  function Play(st: GameState, rounds: seq<Round>): (s: Session)
    requires Scripted(st, rounds)
    ensures InBounds(s.state)
    ensures s.played <= |rounds|
    ensures s.state.score >= st.score
    ensures st.level <= s.state.level <= st.level + s.played
    ensures s.status == Won <==> s.state.level > MaxLevel
    ensures s.status == Waiting ==> s.played == |rounds|
    ensures s.status == Quit ==> 1 <= s.played && !WantsRetry(rounds[s.played - 1].retry)
    decreases |rounds|
  {
    if st.level > MaxLevel then Session(st, Won, 0)
    else if rounds == [] then Session(st, Waiting, 0)
    else
      var s := PlayRound(st, rounds[0]);
      if s.declined then Session(s.next, Quit, 1)
      else
        var rest := Play(s.next, rounds[1..]);
        assert rest.status == Quit ==> rounds[1..][rest.played - 1].retry == rounds[rest.played].retry;
        Session(rest.state, rest.status, rest.played + 1)
  }

  /** The first `n` rounds are each passed or failed and retried: none of
      them leaves the loop. */
  predicate Continued(st: GameState, rounds: seq<Round>, n: nat)
    requires Scripted(st, rounds) && n <= |rounds|
    decreases n
  {
    n == 0 ||
    (st.level <= MaxLevel &&
     var s := PlayRound(st, rounds[0]);
     !s.declined && Continued(s.next, rounds[1..], n - 1))
  }

  /** Continuing past a first round that does not leave the loop. */
  lemma ContinuedCons(st: GameState, rounds: seq<Round>, j: nat)
    requires Scripted(st, rounds) && st.level <= MaxLevel && j < |rounds|
    requires !PlayRound(st, rounds[0]).declined
    requires Continued(PlayRound(st, rounds[0]).next, rounds[1..], j)
    ensures Continued(st, rounds, j + 1)
  {
  }

  /** How many rounds of a session passed or were retried: all it played,
      save the declined one of a quit session. */
  function Kept(s: Session): (n: nat)
    requires s.status == Quit ==> 1 <= s.played
    ensures n == s.played || (s.status == Quit && n + 1 == s.played)
  {
    if s.status == Quit then s.played - 1 else s.played
  }

  /** A session that stops at its first round keeps none of its rounds. */
  lemma StopsAtFirst(st: GameState, rounds: seq<Round>)
    requires Scripted(st, rounds)
    requires !(st.level <= MaxLevel && rounds != [] && !PlayRound(st, rounds[0]).declined)
    ensures Kept(Play(st, rounds)) == 0
  {
    if st.level <= MaxLevel && rounds != [] {
      assert Play(st, rounds) == Session(PlayRound(st, rounds[0]).next, Quit, 1);
    }
  }

  /** A first round that does not leave the loop is kept on top of those the
      rest of the session keeps. */
  lemma KeepsFirst(st: GameState, rounds: seq<Round>)
    requires Scripted(st, rounds) && st.level <= MaxLevel && rounds != []
    requires !PlayRound(st, rounds[0]).declined
    ensures Kept(Play(st, rounds)) == Kept(Play(PlayRound(st, rounds[0]).next, rounds[1..])) + 1
  {
    var rest := Play(PlayRound(st, rounds[0]).next, rounds[1..]);
    assert Play(st, rounds).played == rest.played + 1 && Play(st, rounds).status == rest.status;
  }

  /** Every round `Play` plays before the last one either passes or is
      retried, and so is the last one unless the session was quit. */
  lemma {:induction false} PlayContinues(st: GameState, rounds: seq<Round>)
    requires Scripted(st, rounds)
    ensures Kept(Play(st, rounds)) <= |rounds|
    ensures Continued(st, rounds, Kept(Play(st, rounds)))
    decreases |rounds|
  {
    if st.level <= MaxLevel && rounds != [] && !PlayRound(st, rounds[0]).declined {
      var next := PlayRound(st, rounds[0]).next;
      PlayContinues(next, rounds[1..]);
      KeepsFirst(st, rounds);
      ContinuedCons(st, rounds, Kept(Play(next, rounds[1..])));
    } else {
      StopsAtFirst(st, rounds);
    }
  }

  /** Round `n` is the one that leaves the loop: the rounds before it pass
      or are retried, and round `n` itself is failed and its retry declined. */
  predicate EndsDeclined(st: GameState, rounds: seq<Round>, n: nat)
    requires Scripted(st, rounds) && n < |rounds|
    decreases n
  {
    st.level <= MaxLevel &&
    var s := PlayRound(st, rounds[0]);
    if n == 0 then s.declined
    else !s.declined && EndsDeclined(s.next, rounds[1..], n - 1)
  }

  /** A first round that does not leave the loop puts the leaving round one
      further on. */
  lemma EndsDeclinedCons(st: GameState, rounds: seq<Round>, j: nat)
    requires Scripted(st, rounds) && st.level <= MaxLevel && j + 1 < |rounds|
    requires !PlayRound(st, rounds[0]).declined
    requires EndsDeclined(PlayRound(st, rounds[0]).next, rounds[1..], j)
    ensures EndsDeclined(st, rounds, j + 1)
  {
  }

  /** A first round that is not declined leaves the rest of the game to the
      remaining rounds, one round later. */
  lemma PlayStep(st: GameState, rounds: seq<Round>)
    requires Scripted(st, rounds) && st.level <= MaxLevel && rounds != []
    requires !PlayRound(st, rounds[0]).declined
    ensures Play(st, rounds).status == Play(PlayRound(st, rounds[0]).next, rounds[1..]).status
    ensures Play(st, rounds).played == Play(PlayRound(st, rounds[0]).next, rounds[1..]).played + 1
    ensures Play(st, rounds).state == Play(PlayRound(st, rounds[0]).next, rounds[1..]).state
  {
  }

  /** Quitting later in the game is quitting on a round one further on. */
  lemma QuitStep(st: GameState, rounds: seq<Round>)
    requires Scripted(st, rounds) && st.level <= MaxLevel && rounds != []
    requires !PlayRound(st, rounds[0]).declined
    requires var rest := Play(PlayRound(st, rounds[0]).next, rounds[1..]);
      rest.status == Quit ==> EndsDeclined(PlayRound(st, rounds[0]).next, rounds[1..], Kept(rest))
    ensures Play(st, rounds).status == Quit ==> EndsDeclined(st, rounds, Kept(Play(st, rounds)))
  {
    var rest := Play(PlayRound(st, rounds[0]).next, rounds[1..]);
    PlayStep(st, rounds);
    KeepsFirst(st, rounds);
    if rest.status == Quit {
      EndsDeclinedCons(st, rounds, Kept(rest));
    }
  }

  /** A game is quit only on a failed level whose retry was declined, after
      rounds that all passed or were retried. */
  lemma {:induction false} QuitEndsDeclined(st: GameState, rounds: seq<Round>)
    requires Scripted(st, rounds)
    ensures Play(st, rounds).status == Quit ==> EndsDeclined(st, rounds, Kept(Play(st, rounds)))
    decreases |rounds|
  {
    if st.level <= MaxLevel && rounds != [] {
      var s := PlayRound(st, rounds[0]);
      if s.declined {
        StopsAtFirst(st, rounds);
        assert EndsDeclined(st, rounds, 0);
      } else {
        QuitEndsDeclined(s.next, rounds[1..]);
        QuitStep(st, rounds);
      }
    } else {
      assert Play(st, rounds).status != Quit;
    }
  }


  /** Levels passed and points gained over a run of rounds. */
  datatype Totals = Totals(passed: nat, gained: nat)

  function AddTotals(a: Totals, b: Totals): Totals {
    Totals(a.passed + b.passed, a.gained + b.gained)
  }

  /** What one round contributes, read off the level's outcome alone: one
      level if it is passed, and the points its puzzles earned. Playing the
      round moves the game on by exactly these totals. */
  function RoundTotals(st: GameState, rd: Round): (t: Totals)
    requires LevelInputs(st.level, rd.kinds, rd.draws, rd.replies)
    ensures t.passed == 1 <==> LevelOutcome(st.level, rd.kinds, rd.draws, rd.replies, st.score).passed
    ensures t.passed <= 1
    ensures st.score + t.gained == LevelOutcome(st.level, rd.kinds, rd.draws, rd.replies, st.score).score
    ensures InBounds(st) && st.level <= MaxLevel ==>
      PlayRound(st, rd).next.level == st.level + t.passed && PlayRound(st, rd).next.score == st.score + t.gained
  {
    var r := LevelOutcome(st.level, rd.kinds, rd.draws, rd.replies, st.score);
    Totals(if r.passed then 1 else 0, r.score - st.score)
  }

  /** The totals of those of the first `n` rounds that the game plays,
      each read from the level outcome at the state the rounds before it
      reach: the run stops after a declined round or once past the last
      level. */
  function TotalsOf(st: GameState, rounds: seq<Round>, n: nat): Totals
    requires Scripted(st, rounds) && n <= |rounds|
    decreases n
  {
    if n == 0 || st.level > MaxLevel then Totals(0, 0)
    else
      var s := PlayRound(st, rounds[0]);
      var here := RoundTotals(st, rounds[0]);
      if s.declined || n == 1 then here
      else AddTotals(here, TotalsOf(s.next, rounds[1..], n - 1))
  }

  /** Past a first round that is not declined, the totals of `j + 1`
      rounds are the first round's plus those of the `j` after it. */
  lemma TotalsCons(st: GameState, rounds: seq<Round>, j: nat)
    requires Scripted(st, rounds) && st.level <= MaxLevel && j < |rounds|
    requires !PlayRound(st, rounds[0]).declined
    ensures TotalsOf(st, rounds, j + 1) ==
      AddTotals(RoundTotals(st, rounds[0]), TotalsOf(PlayRound(st, rounds[0]).next, rounds[1..], j))
  {
  }

  /** The final level and score are the start plus the totals of the
      rounds played. */
  predicate AddsUp(st: GameState, rounds: seq<Round>)
    requires Scripted(st, rounds)
  {
    var p := Play(st, rounds);
    var t := TotalsOf(st, rounds, p.played);
    p.state.level == st.level + t.passed && p.state.score == st.score + t.gained
  }

  /** A first round that is declined ends the game on its own totals. */
  lemma AddsUpAtDecline(st: GameState, rounds: seq<Round>)
    requires Scripted(st, rounds) && st.level <= MaxLevel && rounds != []
    requires PlayRound(st, rounds[0]).declined
    ensures AddsUp(st, rounds)
  {
    assert Play(st, rounds) == Session(PlayRound(st, rounds[0]).next, Quit, 1);
  }

  /** A first round that is not declined adds its totals to those of the
      rest of the game. */
  lemma AddsUpStep(st: GameState, rounds: seq<Round>)
    requires Scripted(st, rounds) && st.level <= MaxLevel && rounds != []
    requires !PlayRound(st, rounds[0]).declined
    requires AddsUp(PlayRound(st, rounds[0]).next, rounds[1..])
    ensures AddsUp(st, rounds)
  {
    PlayStep(st, rounds);
    TotalsCons(st, rounds, Play(PlayRound(st, rounds[0]).next, rounds[1..]).played);
  }

  /** The game ends where its rounds lead: the final level is the starting
      level plus the number of levels passed among the rounds played, and
      the final score is the starting score plus every point those rounds
      earned, the declined round's included. */
  lemma {:induction false} PlayAddsUp(st: GameState, rounds: seq<Round>)
    requires Scripted(st, rounds)
    ensures Play(st, rounds).state.level == st.level + TotalsOf(st, rounds, Play(st, rounds).played).passed
    ensures Play(st, rounds).state.score == st.score + TotalsOf(st, rounds, Play(st, rounds).played).gained
    decreases |rounds|
  {
    if st.level > MaxLevel || rounds == [] {
      assert Play(st, rounds) == Session(st, if st.level > MaxLevel then Won else Waiting, 0);
    } else if PlayRound(st, rounds[0]).declined {
      AddsUpAtDecline(st, rounds);
    } else {
      PlayAddsUp(PlayRound(st, rounds[0]).next, rounds[1..]);
      AddsUpStep(st, rounds);
    }
  }

  /** What the game prints at the end. */
  datatype Report = Report(finalScore: nat, levelsCompleted: int, victory: bool)

  /** The final report: levels completed is `level - 1`, between 0 and the
      maximum, and victory means every level was completed. */
  function Final(s: Session): (r: Report)
    requires InBounds(s.state)
    ensures r.finalScore == s.state.score
    ensures 0 <= r.levelsCompleted <= MaxLevel
    ensures r.levelsCompleted == s.state.level - 1
    ensures r.victory <==> r.levelsCompleted == MaxLevel
  {
    Report(s.state.score, s.state.level - 1, s.state.level > MaxLevel)
  }

  /** Passing level 10 ends the game in victory without starting a level 11:
      whatever rounds remain are not played. */
  lemma PassingTheLastLevelWins(st: GameState, rounds: seq<Round>)
    requires Scripted(st, rounds) && st.level == MaxLevel && rounds != []
    requires LevelOutcome(st.level, rounds[0].kinds, rounds[0].draws, rounds[0].replies, st.score).passed
    ensures Play(st, rounds).status == Won
    ensures Play(st, rounds).played == 1
    ensures Final(Play(st, rounds)).victory && Final(Play(st, rounds)).levelsCompleted == MaxLevel
  {
    var s := PlayRound(st, rounds[0]);
    assert s.next.level == MaxLevel + 1;
  }
}
