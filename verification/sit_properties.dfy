/**
  Properties of the sit training controller: the reachable-state invariant,
  the agreement of the hand-written step and click functions with the
  script table, and what the voice command does before and after the dog
  "understands" it.
 */
module SitProperties {
  import opened Text
  import opened Training
  import opened SitTraining

  /** The recognised phrase contains a sit keyword. */
  predicate Oye(texto: string) {
    ContienePalabra(Normalize(texto), ComandosSentado)
  }

  /** The last step of a level (the terminal one). */
  function LastStep(nivel: int): int {
    |Guion(nivel)|
  }

  /** The states the controller can reach from `Inicial`. With no timer
      pending the controller sits on a non-terminal step of level 1 to 3 and
      awaits exactly what the script says; while a timer is pending nothing
      is awaited, and each timer belongs to one phase. */
  predicate Inv(s: Estado) {
    match s.temporizador
    case NoTimer =>
      && 1 <= s.nivelActual <= 3 && 1 <= s.pasoActual < LastStep(s.nivelActual)
      && s.esperas == Only(Script(s.nivelActual, s.pasoActual))
      && (s.nivelActual == 1 ==> s.comandoComprendido == (s.pasoActual >= 3))
    case StartupDue =>
      s.nivelActual == 1 && s.pasoActual == 0 && s.esperas == Ninguna
    case LevelAdvanceDue =>
      (s.nivelActual == 1 || s.nivelActual == 2) && s.pasoActual == LastStep(s.nivelActual) && s.esperas == Ninguna
    case NextLevelDue =>
      (s.nivelActual == 2 || s.nivelActual == 3) && s.esperas == Ninguna
    case FinishDue =>
      s.nivelActual == 3 && s.pasoActual == LastStep(3) && s.esperas == Ninguna
    case RestartDue =>
      s.esperas == Ninguna
  }

  /** A user input (as opposed to a timer or cooldown event). */
  predicate IsInput(e: Event) {
    e.Voice? || e.CookieClick? || e.PetClick? || e.BallClick?
  }

  /** The input is exactly what the current step of the script waits for. */
  predicate Expects(s: Estado, e: Event) {
    && s.temporizador == NoTimer
    && match e
       case Voice(t) => Oye(t) && Script(s.nivelActual, s.pasoActual) == ForSit
       case CookieClick => Script(s.nivelActual, s.pasoActual) == ForCookie
       case PetClick => Script(s.nivelActual, s.pasoActual) == ForPet
       case BallClick => Script(s.nivelActual, s.pasoActual) == ForBall
       case _ => false
  }

  lemma InicialInv()
    ensures Inv(Inicial())
  {
  }

  /** The step after `s` as the script sees it: the next step awaits what
      the script says, a terminal step starts the level's timer. */
  predicate AdvancedByScript(s: Estado, r: Estado) {
    && r.nivelActual == s.nivelActual && r.pasoActual == s.pasoActual + 1
    && r.esperas == Only(Script(s.nivelActual, r.pasoActual))
    && r.temporizador == Schedule(NoTimer, Script(s.nivelActual, r.pasoActual), TerminalTimer(s.nivelActual))
    && (r.nivelActual == 1 ==> r.comandoComprendido == (r.pasoActual >= 3))
  }

  /** Progress: an input moves the script by exactly one step when it is
      what the current step waits for, and otherwise leaves level, step,
      flags, timer and instruction unchanged. */
  lemma Progress(s: Estado, e: Event)
    requires Inv(s) && IsInput(e)
    ensures Expects(s, e) ==> AdvancedByScript(s, Step(s, e))
    ensures !Expects(s, e) ==> SameProgress(s, Step(s, e))
  {
    match e
    case Voice(t) => VoiceProgress(s, t);
    case CookieClick => CookieProgress(s);
    case PetClick => PetProgress(s);
    case BallClick => BallProgress(s);
  }

  lemma VoiceProgress(s: Estado, t: string)
    requires Inv(s)
    ensures Expects(s, Voice(t)) ==> AdvancedByScript(s, Step(s, Voice(t)))
    ensures !Expects(s, Voice(t)) ==> SameProgress(s, Step(s, Voice(t)))
  {
  }

  lemma CookieProgress(s: Estado)
    requires Inv(s)
    ensures Expects(s, CookieClick) ==> AdvancedByScript(s, Step(s, CookieClick))
    ensures !Expects(s, CookieClick) ==> SameProgress(s, Step(s, CookieClick))
  {
  }

  lemma PetProgress(s: Estado)
    requires Inv(s)
    ensures Expects(s, PetClick) ==> AdvancedByScript(s, Step(s, PetClick))
    ensures !Expects(s, PetClick) ==> SameProgress(s, Step(s, PetClick))
  {
  }

  lemma BallProgress(s: Estado)
    requires Inv(s)
    ensures Expects(s, BallClick) ==> AdvancedByScript(s, Step(s, BallClick))
    ensures !Expects(s, BallClick) ==> SameProgress(s, Step(s, BallClick))
  {
  }

  /** Every event keeps the controller inside its reachable states. */
  lemma StepPreservesInv(s: Estado, e: Event)
    requires Inv(s)
    ensures Inv(Step(s, e))
  {
    match e
    case Voice(t) => VoiceProgress(s, t); AdvanceKeepsInv(s, Step(s, e));
    case CookieClick => CookieProgress(s); AdvanceKeepsInv(s, Step(s, e));
    case PetClick => PetProgress(s); AdvanceKeepsInv(s, Step(s, e));
    case BallClick => BallProgress(s);
    case Elapsed(t) => ElapsedPreservesInv(s, t);
    case AnimationSettled =>
    case FeedbackExpired(g) =>
  }

  /** An input either leaves the script where it was or moves it one step
      as the script says; both keep the invariant. */
  lemma AdvanceKeepsInv(s: Estado, r: Estado)
    requires Inv(s)
    requires SameProgress(s, r) || (AdvancedByScript(s, r) && s.temporizador == NoTimer)
    ensures Inv(r)
  {
  }

  lemma ElapsedPreservesInv(s: Estado, t: Timer)
    requires Inv(s)
    ensures Inv(Step(s, Elapsed(t)))
  {
  }

  lemma {:induction false} RunPreservesInv(s: Estado, es: seq<Event>)
    requires Inv(s)
    ensures Inv(Run(s, es))
    decreases |es|
  {
    if |es| > 0 {
      StepPreservesInv(s, es[0]);
      RunPreservesInv(Step(s, es[0]), es[1..]);
    }
  }

  /** Every state reachable from `Inicial` satisfies the invariant. */
  lemma ReachableInv(es: seq<Event>)
    ensures Inv(Run(Inicial(), es))
  {
    InicialInv();
    RunPreservesInv(Inicial(), es);
  }

  lemma HeardWhileAwaiting(s: Estado, t: string)
    requires Oye(t) && s.esperas.sentado
    ensures Step(s, Voice(t)) == ComandoEsperado(s)
  {
  }

  /** What the invariant says about a voice step of level 1. */
  lemma InvAt(s: Estado)
    requires Inv(s) && s.temporizador == NoTimer && s.nivelActual == 1 && (s.pasoActual == 1 || s.pasoActual == 3)
    ensures s.esperas == Only(ForSit) && s.comandoComprendido == (s.pasoActual == 3)
  {
  }

  /** Level 1: the first time the dog hears the command it does not
      understand it (a question mark, no animation); the second time it
      sits. */
  lemma FirstCommandNotUnderstood(s: Estado, t: string)
    requires Inv(s) && s.temporizador == NoTimer && s.nivelActual == 1 && s.pasoActual == 1 && Oye(t)
    ensures var r := Step(s, Voice(t));
            && r.feedback.text == Duda
            && r.efectos == s.efectos + [ShowModel(Interrogacion), ShowButton(BotonGalleta)]
            && r.pasoActual == 2 && r.esperas == Only(ForCookie)
  {
    InvAt(s);
    HeardWhileAwaiting(s, t);
    NotUnderstoodAtStep1(s);
  }

  lemma NotUnderstoodAtStep1(s: Estado)
    requires s.esperas == Only(ForSit) && s.nivelActual == 1 && s.pasoActual == 1 && !s.comandoComprendido
    ensures var r := ComandoEsperado(s);
            && r.feedback.text == Duda
            && r.efectos == s.efectos + [ShowModel(Interrogacion), ShowButton(BotonGalleta)]
            && r.pasoActual == 2 && r.esperas == Only(ForCookie)
  {
  }

  lemma SecondCommandUnderstood(s: Estado, t: string)
    requires Inv(s) && s.temporizador == NoTimer && s.nivelActual == 1 && s.pasoActual == 3 && Oye(t)
    requires !s.esperandoFinAnimacion
    ensures var r := Step(s, Voice(t));
            && r.feedback.text == AvisoSentado && r.esperandoFinAnimacion
            && r.efectos == s.efectos + [Animate(Sentado), ShowButton(BotonGalleta)]
            && r.pasoActual == 4 && r.esperas == Only(ForCookie)
  {
    InvAt(s);
    HeardWhileAwaiting(s, t);
    UnderstoodAtStep3(s);
  }

  lemma UnderstoodAtStep3(s: Estado)
    requires s.esperas == Only(ForSit) && s.nivelActual == 1 && s.pasoActual == 3 && s.comandoComprendido
    requires !s.esperandoFinAnimacion
    ensures var r := ComandoEsperado(s);
            && r.feedback.text == AvisoSentado && r.esperandoFinAnimacion
            && r.efectos == s.efectos + [Animate(Sentado), ShowButton(BotonGalleta)]
            && r.pasoActual == 4 && r.esperas == Only(ForCookie)
  {
  }

  /** The animation cooldown only suppresses the animation: the script
      moves the same way whether or not it is on. */
  lemma CooldownOnlyGatesAnimation(s: Estado, e: Event, b: bool)
    ensures SameProgress(Step(s, e), Step(s.(esperandoFinAnimacion := b), e))
  {
    match e
    case Voice(t) => CooldownVoice(s, t, b);
    case CookieClick => CooldownCookie(s, b);
    case PetClick => CooldownPet(s, b);
    case BallClick => CooldownBall(s, b);
    case Elapsed(t) => CooldownElapsed(s, t, b);
    case AnimationSettled =>
    case FeedbackExpired(g) =>
  }

  lemma CooldownVoice(s: Estado, t: string, b: bool)
    ensures SameProgress(Step(s, Voice(t)), Step(s.(esperandoFinAnimacion := b), Voice(t)))
  {
    var c := s.(esperandoFinAnimacion := b);
    if s.esperas.sentado && Oye(t) {
      HeardWhileAwaiting(s, t);
      HeardWhileAwaiting(c, t);
      ExpectedCommandIgnoresCooldown(s, b);
    }
  }

  lemma ExpectedCommandIgnoresCooldown(s: Estado, b: bool)
    requires s.esperas.sentado
    ensures SameProgress(ComandoEsperado(s), ComandoEsperado(s.(esperandoFinAnimacion := b)))
  {
    var c := s.(esperandoFinAnimacion := b);
    var s1, c1 := s.(esperas := s.esperas.(sentado := false)), c.(esperas := c.esperas.(sentado := false));
    if s.nivelActual == 1 && !s.comandoComprendido {
      Advance1DependsOnProgress(Recompensa(s1, Interrogacion, Duda), Recompensa(c1, Interrogacion, Duda));
    } else if s.nivelActual == 1 {
      Advance1DependsOnProgress(EjecutarComando(s1, Sentado), EjecutarComando(c1, Sentado));
    } else if s.nivelActual == 2 {
      Advance2DependsOnProgress(EjecutarComando(s1, Sentado), EjecutarComando(c1, Sentado));
    } else if s.nivelActual == 3 {
      Advance3DependsOnProgress(EjecutarComando(s1, Sentado), EjecutarComando(c1, Sentado));
    }
  }

  lemma CooldownCookie(s: Estado, b: bool)
    ensures SameProgress(Step(s, CookieClick), Step(s.(esperandoFinAnimacion := b), CookieClick))
  {
    var c := s.(esperandoFinAnimacion := b);
    var s1 := s.(esperas := s.esperas.(galleta := false), efectos := s.efectos + [HideButton(BotonGalleta)]);
    var c1 := c.(esperas := c.esperas.(galleta := false), efectos := c.efectos + [HideButton(BotonGalleta)]);
    if s.esperas.galleta {
      if s.nivelActual == 1 && s.pasoActual == 2 {
        Advance1DependsOnProgress(Recompensa(s1, Admiracion, Asombro), Recompensa(c1, Admiracion, Asombro));
      } else if s.nivelActual == 1 && s.pasoActual == 4 {
        Advance1DependsOnProgress(s1, c1);
      } else if s.nivelActual == 2 {
        Advance2DependsOnProgress(Recompensa(s1, Admiracion, Asombro), Recompensa(c1, Admiracion, Asombro));
      }
    }
  }

  lemma CooldownPet(s: Estado, b: bool)
    ensures SameProgress(Step(s, PetClick), Step(s.(esperandoFinAnimacion := b), PetClick))
  {
    var c := s.(esperandoFinAnimacion := b);
    var s1 := s.(esperas := s.esperas.(acariciar := false), efectos := s.efectos + [HideButton(BotonAcariciar)]);
    var c1 := c.(esperas := c.esperas.(acariciar := false), efectos := c.efectos + [HideButton(BotonAcariciar)]);
    if s.esperas.acariciar && s.nivelActual == 2 && s.pasoActual == 3 {
      Advance2DependsOnProgress(Recompensa(s1, Corazon, Carino), Recompensa(c1, Corazon, Carino));
    } else if s.esperas.acariciar && s.nivelActual == 3 && s.pasoActual == 2 {
      Advance3DependsOnProgress(Recompensa(s1, Corazon, Carino), Recompensa(c1, Corazon, Carino));
    }
  }

  lemma CooldownBall(s: Estado, b: bool)
    ensures SameProgress(Step(s, BallClick), Step(s.(esperandoFinAnimacion := b), BallClick))
  {
    var c := s.(esperandoFinAnimacion := b);
    var s1 := s.(esperas := s.esperas.(pelota := false), efectos := s.efectos + [HideButton(BotonPelota)]);
    var c1 := c.(esperas := c.esperas.(pelota := false), efectos := c.efectos + [HideButton(BotonPelota)]);
    Advance3DependsOnProgress(Recompensa(s1, Corazon, Carino), Recompensa(c1, Corazon, Carino));
  }

  lemma CooldownElapsed(s: Estado, t: Timer, b: bool)
    ensures SameProgress(Step(s, Elapsed(t)), Step(s.(esperandoFinAnimacion := b), Elapsed(t)))
  {
  }

  /** The step functions look only at the script position. */
  lemma Advance1DependsOnProgress(a: Estado, b: Estado)
    requires SameProgress(a, b)
    ensures SameProgress(AvanzarPasoNivel1(a), AvanzarPasoNivel1(b))
  {
  }

  lemma Advance2DependsOnProgress(a: Estado, b: Estado)
    requires SameProgress(a, b)
    ensures SameProgress(AvanzarPasoNivel2(a), AvanzarPasoNivel2(b))
  {
  }

  lemma Advance3DependsOnProgress(a: Estado, b: Estado)
    requires SameProgress(a, b)
    ensures SameProgress(AvanzarPasoNivel3(a), AvanzarPasoNivel3(b))
  {
  }

  /** Outside a voice step a second sit command heard before the animation
      has settled does nothing. */
  lemma CooldownSwallowsRepeat(s: Estado, t: string)
    requires !s.esperas.sentado
    ensures Step(Step(s, Voice(t)), Voice(t)) == Step(s, Voice(t))
  {
  }

  /** After the last step of level 3 the two timers bring the training back
      to level 1, step 1, with the command not yet understood. */
  lemma FinishRestarts(s: Estado)
    requires Inv(s) && s.temporizador == FinishDue
    ensures var r := Run(s, [Elapsed(FinishDue), Elapsed(RestartDue)]);
            && r.nivelActual == 1 && r.pasoActual == 1 && r.temporizador == NoTimer
            && r.esperas == Only(ForSit) && !r.comandoComprendido
  {
    var s1 := Step(s, Elapsed(FinishDue));
    assert s1.temporizador == RestartDue && s1.esperas == Ninguna;
    assert Run(s, [Elapsed(FinishDue), Elapsed(RestartDue)]) == Run(s1, [Elapsed(RestartDue)]);
  }

  /** The plain keyword "sentado" is heard as the sit command. */
  lemma SentadoIsHeard()
    ensures Oye("sentado")
  {
    NormalizeFixes("sentado");
    KeywordMatchesItself(ComandosSentado, 0);
  }

  /** Capitals and surrounding white space do not hide the command: a
      padded "Sentado" normalises to the keyword and is heard. */
  lemma PaddedCapitalisedIsHeard()
    ensures Normalize("  Sentado ") == "sentado"
    ensures Oye("  Sentado ")
  {
    PaddedLowers();
    PaddedTrimsStart();
    PaddedTrimsEnd();
    SentadoIsHeard();
  }

  lemma PaddedLowers()
    ensures Lower("  Sentado ") == "  sentado "
  {
    var l := Lower("  Sentado ");
    forall i | 0 <= i < 10 ensures l[i] == "  sentado "[i] { }
  }

  lemma PaddedTrimsStart()
    ensures TrimStart("  sentado ") == "sentado "
  {
    assert "  sentado "[1..] == " sentado ";
    assert " sentado "[1..] == "sentado ";
    assert !IsSpace("sentado "[0]);
    assert TrimStart("sentado ") == "sentado ";
    assert TrimStart(" sentado ") == "sentado ";
  }

  lemma PaddedTrimsEnd()
    ensures TrimEnd("sentado ") == "sentado"
  {
    assert "sentado "[..7] == "sentado";
  }

  /** The input that the script waits for, or the pending timer. */
  function Driver(s: Estado): Event {
    if s.temporizador != NoTimer then Elapsed(s.temporizador)
    else match Script(s.nivelActual, s.pasoActual)
      case ForSit => Voice("sentado")
      case ForCookie => CookieClick
      case ForPet => PetClick
      case ForBall => BallClick
      case _ => AnimationSettled
  }

  /** The training never gets stuck: in every reachable state the awaited
      input advances the script by one step, and a pending timer moves on
      to the next phase. */
  lemma NeverStuck(s: Estado)
    requires Inv(s)
    ensures s.temporizador == NoTimer ==> AdvancedByScript(s, Step(s, Driver(s)))
    ensures s.temporizador != NoTimer ==> Step(s, Driver(s)).temporizador != s.temporizador
  {
    if s.temporizador == NoTimer {
      DriverIsExpected(s);
      Progress(s, Driver(s));
    } else {
      TimerMoves(s);
    }
  }

  lemma DriverIsExpected(s: Estado)
    requires Inv(s) && s.temporizador == NoTimer
    ensures IsInput(Driver(s)) && Expects(s, Driver(s))
  {
    var a := Script(s.nivelActual, s.pasoActual);
    ScriptInsideLevel(s.nivelActual, s.pasoActual);
    if a == ForSit {
      SentadoIsHeard();
      assert Driver(s) == Voice("sentado");
    }
  }

  /** A non-terminal step of a level waits for an input. */
  lemma ScriptInsideLevel(nivel: int, paso: int)
    requires 1 <= nivel <= 3 && 1 <= paso < LastStep(nivel)
    ensures Script(nivel, paso) in {ForSit, ForCookie, ForPet, ForBall}
  {
  }

  lemma TimerMoves(s: Estado)
    requires Inv(s) && s.temporizador != NoTimer
    ensures Step(s, Elapsed(s.temporizador)).temporizador != s.temporizador
  {
  }
}
