/** The scene flow of the whole game: loading (Boot), the title menu (UI),
    then gameplay (Game), which can restart itself after a game over. Every
    engine signal is one event delivered to the running scene. */
module Scenes {
  import opened SessionState
  import opened Game

  datatype Phase = Boot | Menu | Playing(game: GameState)

  datatype Event =
    | LoadComplete              // the loader finished every asset
    | StartClicked              // pointer down on the menu's start button
    | RestartClicked            // pointer down on the game-over restart button
    | Frame(input: Input)       // one update of the running scene
    | Gameplay(e: SessionState.Event)  // a contact or a spawn timer

  /** The events on which the menu hands over to the game. */
  predicate StartsGame(e: Event) {
    e == StartClicked || (e.Frame? && e.input.enterJustDown)
  }

  /** Whether `e` restarts the running game: R pressed during a frame, or the
      restart button clicked, which exists only after the run ended. */
  predicate Restarts(g: GameState, e: Event) {
    (e.Frame? && RestartTriggered(g, e.input)) || (e == RestartClicked && g.session.restartOffered)
  }

  /** The scene invariant, for the phase that has one. */
  predicate PhaseValid(ph: Phase) {
    ph.Playing? ==> Game.Valid(ph.game)
  }

  /** One event delivered to the running scene. */
  function Step(ph: Phase, e: Event): (r: Phase)
    ensures ph == Boot ==> (r == Menu <==> e == LoadComplete) && (r != Menu ==> r == Boot)
    ensures ph == Menu ==> (r.Playing? <==> StartsGame(e)) && (r.Playing? ==> r == Playing(Create()))
    ensures ph == Menu && !StartsGame(e) ==> r == Menu
    ensures ph.Playing? ==> r.Playing?
    ensures ph.Playing? && Restarts(ph.game, e) ==> r == Playing(Create())
    ensures ph.Playing? && !Restarts(ph.game, e) ==>
              r.game.session.score >= ph.game.session.score
              && r.game.session.lives <= ph.game.session.lives
    ensures ph.Playing? && e.Frame? ==> r.game == Tick(ph.game, e.input)
    ensures ph.Playing? && e.Gameplay? ==>
              && r.game.session == Handle(ph.game.session, e.e)
              && r.game.player == ph.game.player && r.game.scroll == ph.game.scroll
    ensures ph.Playing? && !e.Gameplay? && !Restarts(ph.game, e) ==> r.game.session == ph.game.session
    ensures ph.Playing? && !e.Gameplay? && !e.Frame? && !Restarts(ph.game, e) ==> r == ph
    ensures PhaseValid(ph) ==> PhaseValid(r)
  {
    match ph
    case Boot => if e == LoadComplete then Menu else Boot
    case Menu => if StartsGame(e) then Playing(Create()) else Menu
    case Playing(g) =>
      match e
      case Frame(i) => Playing(Tick(g, i))
      case RestartClicked => if g.session.restartOffered then Playing(Create()) else ph
      case Gameplay(ev) =>
        var s := Handle(g.session, ev);
        assert Game.Valid(g) ==> Game.Valid(g.(session := s));
        Playing(g.(session := s))
      case LoadComplete => ph
      case StartClicked => ph
  }

  /** The phase after a sequence of events from `ph`, first event first.
      Unlike the other folds this one peels the LAST event off, so that the
      lemmas below can reason about the phase reached just before it (the
      menu before the start trigger, Boot before the load). */
  function Run(ph: Phase, evs: seq<Event>): Phase
    decreases |evs|
  {
    if |evs| == 0 then ph else Step(Run(ph, evs[..|evs| - 1]), evs[|evs| - 1])
  }

  /** Whatever the engine delivers, a running game keeps its invariant. */
  lemma {:induction false} RunPreservesValid(evs: seq<Event>)
    ensures PhaseValid(Run(Boot, evs))
    decreases |evs|
  {
    if |evs| > 0 {
      RunPreservesValid(evs[..|evs| - 1]);
    }
  }

  /** The menu is never shown before loading completed. */
  lemma {:induction false} MenuOnlyAfterLoad(evs: seq<Event>)
    ensures Run(Boot, evs) != Boot ==> exists k :: 0 <= k < |evs| && evs[k] == LoadComplete
    decreases |evs|
  {
    if |evs| > 0 {
      var prev := evs[..|evs| - 1];
      MenuOnlyAfterLoad(prev);
      if Run(Boot, prev) != Boot {
        var k :| 0 <= k < |prev| && prev[k] == LoadComplete;
        assert evs[k] == LoadComplete;
      } else if Run(Boot, evs) != Boot {
        assert evs[|evs| - 1] == LoadComplete;
      }
    }
  }

  /** Gameplay is reached only after loading completed and, later, the start
      button was clicked or Enter pressed in the menu. */
  lemma {:induction false} GameOnlyAfterLoadAndStart(evs: seq<Event>)
    ensures Run(Boot, evs).Playing? ==>
              exists k, m :: 0 <= k < m < |evs| && evs[k] == LoadComplete && StartsGame(evs[m])
    decreases |evs|
  {
    if |evs| > 0 {
      var prev := evs[..|evs| - 1];
      var last := |evs| - 1;
      GameOnlyAfterLoadAndStart(prev);
      MenuOnlyAfterLoad(prev);
      var before := Run(Boot, prev);
      if before.Playing? {
        var k, m :| 0 <= k < m < |prev| && prev[k] == LoadComplete && StartsGame(prev[m]);
        assert evs[k] == LoadComplete && evs[m] == prev[m];
      } else if before == Menu && Run(Boot, evs).Playing? {
        var k :| 0 <= k < |prev| && prev[k] == LoadComplete;
        assert evs[k] == LoadComplete;
        assert StartsGame(evs[last]);
      }
    }
  }

  /** A restart is possible only once the run is over, and it returns the
      scene to score 0, three lives and empty pools. */
  lemma RestartOnlyFromGameOver(g: GameState, e: Event)
    requires Game.Valid(g)
    requires Restarts(g, e)
    ensures IsOver(g.session)
    ensures var r := Step(Playing(g), e).game;
            r.session.score == 0 && r.session.lives == InitialLives
            && r.session.obstacles == [] && r.session.coins == []
  {
  }

  /** The full round trip: one coin, three collisions, game over, R pressed. */
  lemma ScenarioGameOverAndRestart(i: Input)
    requires i.restartJustDown
    ensures var p1 := Step(Step(Playing(Create()), Gameplay(CoinTimer(240))), Gameplay(Overlap(0)));
            && p1.game.session.score == 10 && p1.game.session.lives == 3
            && var p2 := Step(Step(p1, Gameplay(ObstacleTimer)), Gameplay(Collision(0)));
            && p2.game.session.score == 10 && p2.game.session.lives == 2
            && var p3 := Step(Step(p2, Gameplay(ObstacleTimer)), Gameplay(Collision(0)));
            && p3.game.session.score == 10 && p3.game.session.lives == 1
            && var p4 := Step(Step(p3, Gameplay(ObstacleTimer)), Gameplay(Collision(0)));
            && p4.game.session.score == 10 && p4.game.session.lives == 0
            && p4.game.session.physicsPaused && p4.game.session.restartOffered
            && Step(p4, Frame(i)) == Playing(Create())
  {
  }
}
