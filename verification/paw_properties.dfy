/**
  Properties of the paw training controller: the reachable-state
  invariant, agreement of the step and click functions with the script
  table, the paw keywords, the seated-dog rule of free mode, and the
  level-3 click steps as the source writes them.
 */
module PawProperties {
  import opened Text
  import opened Training
  import opened PawTraining

  predicate OyeSentado(texto: string) {
    ContienePalabra(Normalize(texto), ComandosSentado)
  }

  predicate OyePata(texto: string) {
    ContienePalabra(Normalize(texto), ComandosPata)
  }

  function LastStep(nivel: int): int {
    |Guion(nivel)|
  }

  /** The states the controller can reach from `Inicial` (with the click
      handlers that advance at the armed steps). */
  predicate Inv(s: Estado) {
    match s.temporizador
    case NoTimer =>
      && 1 <= s.nivelActual <= 3 && 1 <= s.pasoActual < LastStep(s.nivelActual)
      && s.esperas == Only(Script(s.nivelActual, s.pasoActual))
      && (s.nivelActual == 1 && s.pasoActual >= 2 ==> s.comandoComprendido == (s.pasoActual >= 5))
    case StartupDue =>
      s.nivelActual == 1 && s.pasoActual == 0 && s.esperas == Ninguna
    case LevelAdvanceDue =>
      (s.nivelActual == 1 || s.nivelActual == 2) && s.pasoActual == LastStep(s.nivelActual) && s.esperas == Ninguna
    case NextLevelDue =>
      (s.nivelActual == 2 || s.nivelActual == 3) && s.esperas == Ninguna
    case FinishDue =>
      s.nivelActual == 3 && s.pasoActual == LastStep(3) && s.esperas == Ninguna
    case RestartDue =>
      s.esperas == Ninguna
  }

  predicate IsInput(e: Event) {
    e.Voice? || e.CookieClick? || e.PetClick? || e.BallClick?
  }

  /** `e` is the input that answers `a`: a heard keyword for a voice step,
      the right button for a click step. */
  predicate Atiende(e: Event, a: Await) {
    match a
    case ForSit => e.Voice? && OyeSentado(e.texto)
    case ForPaw => e.Voice? && OyePata(e.texto)
    case ForCookie => e.CookieClick?
    case ForPet => e.PetClick?
    case ForBall => e.BallClick?
    case _ => false
  }

  /** The input is exactly what the current step of the script waits for. */
  predicate Expects(s: Estado, e: Event) {
    s.temporizador == NoTimer && Atiende(e, Script(s.nivelActual, s.pasoActual))
  }

  predicate AdvancedByScript(s: Estado, r: Estado) {
    && r.nivelActual == s.nivelActual && r.pasoActual == s.pasoActual + 1
    && r.esperas == Only(Script(s.nivelActual, r.pasoActual))
    && r.temporizador == Schedule(NoTimer, Script(s.nivelActual, r.pasoActual), TerminalTimer(s.nivelActual))
    && (r.nivelActual == 1 && r.pasoActual >= 2 ==> r.comandoComprendido == (r.pasoActual >= 5))
  }

  lemma InicialInv()
    ensures Inv(Inicial())
  {
  }

  /** Progress: an input moves the script by exactly one step when it is
      what the current step waits for, and otherwise leaves level, step,
      flags, timer and instruction unchanged. */
  lemma Progress(s: Estado, e: Event)
    requires Inv(s) && IsInput(e)
    ensures Expects(s, e) ==> AdvancedByScript(s, Step(s, e))
    ensures !Expects(s, e) ==> SameProgress(s, Step(s, e))
  {
    match e
    case Voice(t, b) =>
      if s.esperas.sentado {
        SitGateProgress(s, t, b);
      } else if s.esperas.pata {
        PawGateProgress(s, t, b);
      } else {
        FreeModeProgress(s, t, b);
      }
    case CookieClick => CookieProgress(s);
    case PetClick => PetProgress(s);
    case BallClick => BallProgress(s);
  }

  lemma SitGateProgress(s: Estado, t: string, b: bool)
    requires Inv(s) && s.esperas.sentado
    ensures Expects(s, Voice(t, b)) ==> AdvancedByScript(s, Step(s, Voice(t, b)))
    ensures !Expects(s, Voice(t, b)) ==> SameProgress(s, Step(s, Voice(t, b)))
  {
  }

  lemma PawGateProgress(s: Estado, t: string, b: bool)
    requires Inv(s) && !s.esperas.sentado && s.esperas.pata
    ensures Expects(s, Voice(t, b)) ==> AdvancedByScript(s, Step(s, Voice(t, b)))
    ensures !Expects(s, Voice(t, b)) ==> SameProgress(s, Step(s, Voice(t, b)))
  {
  }

  lemma FreeModeProgress(s: Estado, t: string, b: bool)
    requires Inv(s) && !s.esperas.sentado && !s.esperas.pata
    ensures !Expects(s, Voice(t, b)) && SameProgress(s, Step(s, Voice(t, b)))
  {
  }

  lemma CookieProgress(s: Estado)
    requires Inv(s)
    ensures Expects(s, CookieClick) ==> AdvancedByScript(s, Step(s, CookieClick))
    ensures !Expects(s, CookieClick) ==> SameProgress(s, Step(s, CookieClick))
  {
  }

  lemma PetProgress(s: Estado)
    requires Inv(s)
    ensures Expects(s, PetClick) ==> AdvancedByScript(s, Step(s, PetClick))
    ensures !Expects(s, PetClick) ==> SameProgress(s, Step(s, PetClick))
  {
  }

  lemma BallProgress(s: Estado)
    requires Inv(s)
    ensures Expects(s, BallClick) ==> AdvancedByScript(s, Step(s, BallClick))
    ensures !Expects(s, BallClick) ==> SameProgress(s, Step(s, BallClick))
  {
  }

  /** Every event keeps the controller inside its reachable states. */
  lemma StepPreservesInv(s: Estado, e: Event)
    requires Inv(s)
    ensures Inv(Step(s, e))
  {
    match e
    case Elapsed(t) => ElapsedPreservesInv(s, t);
    case AnimationSettled =>
    case FeedbackExpired(g) =>
    case _ => Progress(s, e); AdvanceKeepsInv(s, Step(s, e));
  }

  lemma AdvanceKeepsInv(s: Estado, r: Estado)
    requires Inv(s)
    requires SameProgress(s, r) || (AdvancedByScript(s, r) && s.temporizador == NoTimer)
    ensures Inv(r)
  {
  }

  lemma ElapsedPreservesInv(s: Estado, t: Timer)
    requires Inv(s)
    ensures Inv(Step(s, Elapsed(t)))
  {
  }

  lemma {:induction false} RunPreservesInv(s: Estado, es: seq<Event>)
    requires Inv(s)
    ensures Inv(Run(s, es))
    decreases |es|
  {
    if |es| > 0 {
      StepPreservesInv(s, es[0]);
      RunPreservesInv(Step(s, es[0]), es[1..]);
    }
  }

  /** Every state reachable from `Inicial` satisfies the invariant. */
  lemma ReachableInv(es: seq<Event>)
    ensures Inv(Run(Inicial(), es))
  {
    InicialInv();
    RunPreservesInv(Inicial(), es);
  }

  // -----------------------------------------------------------------------
  // Keywords
  // -----------------------------------------------------------------------

  /** Every paw keyword contains "pata", so the paw list matches exactly
      the phrases that contain "pata". */
  lemma OyePataIffPata(texto: string)
    ensures OyePata(texto) <==> IsSubstring("pata", Normalize(texto))
  {
    var t := Normalize(texto);
    if OyePata(texto) {
      var j :| 0 <= j < |ComandosPata| && IsSubstring(ComandosPata[j], t);
      PataInEveryKeyword(j);
      SubstringTransitive("pata", ComandosPata[j], t);
    }
    if IsSubstring("pata", t) {
      assert ComandosPata[0] == "pata";
    }
  }

  lemma PataInEveryKeyword(j: int)
    requires 0 <= j < |ComandosPata|
    ensures IsSubstring("pata", ComandosPata[j])
  {
    if j == 0 {
      assert OccursAt("pata", ComandosPata[0], 0);
    } else if j == 1 {
      assert ComandosPata[1][8..12] == "pata";
      assert OccursAt("pata", ComandosPata[1], 8);
    } else {
      assert ComandosPata[2][3..7] == "pata";
      assert OccursAt("pata", ComandosPata[2], 3);
    }
  }

  lemma SentadoIsHeard()
    ensures OyeSentado("sentado")
  {
    NormalizeFixes("sentado");
    KeywordMatchesItself(ComandosSentado, 0);
  }

  lemma PataIsHeard()
    ensures OyePata("pata")
  {
    NormalizeFixes("pata");
    KeywordMatchesItself(ComandosPata, 0);
  }

  // -----------------------------------------------------------------------
  // Level 1: not understood, then understood
  // -----------------------------------------------------------------------

  lemma HeardPawWhileAwaiting(s: Estado, t: string, b: bool)
    requires OyePata(t) && !s.esperas.sentado && s.esperas.pata
    ensures Step(s, Voice(t, b)) == PataEsperada(s)
  {
  }

  /** What the invariant says about a paw step of level 1. */
  lemma InvAtPawStep(s: Estado)
    requires Inv(s) && s.temporizador == NoTimer && s.nivelActual == 1 && (s.pasoActual == 2 || s.pasoActual == 5)
    ensures s.esperas == Only(ForPaw) && s.comandoComprendido == (s.pasoActual == 5)
  {
  }

  /** Level 1: the first paw command earns a question mark and no
      animation; the second one (step 5) makes the dog give the paw. */
  lemma FirstPawNotUnderstood(s: Estado, t: string, b: bool)
    requires Inv(s) && s.temporizador == NoTimer && s.nivelActual == 1 && s.pasoActual == 2 && OyePata(t)
    ensures var r := Step(s, Voice(t, b));
            && r.feedback.text == Duda
            && r.efectos == s.efectos + [ShowModel(Interrogacion), ShowButton(BotonGalleta)]
            && r.pasoActual == 3 && r.esperas == Only(ForCookie)
  {
    InvAtPawStep(s);
    HeardPawAtStep2(s, t, b);
  }

  lemma HeardPawAtStep2(s: Estado, t: string, b: bool)
    requires s.esperas == Only(ForPaw) && s.nivelActual == 1 && s.pasoActual == 2 && !s.comandoComprendido
    requires OyePata(t)
    ensures var r := Step(s, Voice(t, b));
            && r.feedback.text == Duda
            && r.efectos == s.efectos + [ShowModel(Interrogacion), ShowButton(BotonGalleta)]
            && r.pasoActual == 3 && r.esperas == Only(ForCookie)
  {
    HeardPawWhileAwaiting(s, t, b);
    PawNotUnderstoodAtStep2(s);
  }

  lemma PawNotUnderstoodAtStep2(s: Estado)
    requires s.esperas == Only(ForPaw) && s.nivelActual == 1 && s.pasoActual == 2 && !s.comandoComprendido
    ensures var r := PataEsperada(s);
            && r.feedback.text == Duda
            && r.efectos == s.efectos + [ShowModel(Interrogacion), ShowButton(BotonGalleta)]
            && r.pasoActual == 3 && r.esperas == Only(ForCookie)
  {
  }

  lemma SecondPawUnderstood(s: Estado, t: string, b: bool)
    requires Inv(s) && s.temporizador == NoTimer && s.nivelActual == 1 && s.pasoActual == 5 && OyePata(t)
    requires !s.esperandoFinAnimacion
    ensures var r := Step(s, Voice(t, b));
            && r.feedback.text == AvisoPata && r.esperandoFinAnimacion
            && r.efectos == s.efectos + [Animate(Pata), ShowButton(BotonGalleta)]
            && r.pasoActual == 6 && r.esperas == Only(ForCookie)
  {
    InvAtPawStep(s);
    HeardPawWhileAwaiting(s, t, b);
    PawUnderstoodAtStep5(s);
  }

  lemma PawUnderstoodAtStep5(s: Estado)
    requires s.esperas == Only(ForPaw) && s.nivelActual == 1 && s.pasoActual == 5 && s.comandoComprendido
    requires !s.esperandoFinAnimacion
    ensures var r := PataEsperada(s);
            && r.feedback.text == AvisoPata && r.esperandoFinAnimacion
            && r.efectos == s.efectos + [Animate(Pata), ShowButton(BotonGalleta)]
            && r.pasoActual == 6 && r.esperas == Only(ForCookie)
  {
  }

  // -----------------------------------------------------------------------
  // Free mode
  // -----------------------------------------------------------------------

  /** Outside training steps a paw command makes the dog give the paw only
      when it is seated; a standing dog earns "¡Primero siéntate!" and no
      animation. A sit keyword in the same phrase wins. */
  lemma PawNeedsSeatedDog(s: Estado, t: string, perroSentado: bool)
    requires !s.esperas.sentado && !s.esperas.pata && !s.esperandoFinAnimacion
    requires OyePata(t) && !OyeSentado(t)
    ensures var r := Step(s, Voice(t, perroSentado));
            && SameProgress(s, r)
            && (perroSentado ==> r.efectos == s.efectos + [Animate(Pata)] && r.feedback.text == AvisoPata)
            && (!perroSentado ==> r.efectos == s.efectos && r.feedback.text == PrimeroSientate)
  {
  }

  // -----------------------------------------------------------------------
  // Liveness of the corrected machine
  // -----------------------------------------------------------------------

  /** The input that the script waits for, or the pending timer. */
  function Driver(s: Estado): Event {
    if s.temporizador != NoTimer then Elapsed(s.temporizador)
    else match Script(s.nivelActual, s.pasoActual)
      case ForSit => Voice("sentado", false)
      case ForPaw => Voice("pata", true)
      case ForCookie => CookieClick
      case ForPet => PetClick
      case ForBall => BallClick
      case _ => AnimationSettled
  }

  /** The training never gets stuck: in every reachable state the awaited
      input advances the script by one step, and a pending timer moves on
      to the next phase. */
  lemma NeverStuck(s: Estado)
    requires Inv(s)
    ensures s.temporizador == NoTimer ==> AdvancedByScript(s, Step(s, Driver(s)))
    ensures s.temporizador != NoTimer ==> Step(s, Driver(s)).temporizador != s.temporizador
  {
    if s.temporizador == NoTimer {
      DriverIsExpected(s);
      Progress(s, Driver(s));
    } else {
      TimerMoves(s);
    }
  }

  lemma DriverIsExpected(s: Estado)
    requires Inv(s) && s.temporizador == NoTimer
    ensures IsInput(Driver(s)) && Expects(s, Driver(s))
  {
    var a := Script(s.nivelActual, s.pasoActual);
    ScriptInsideLevel(s.nivelActual, s.pasoActual);
    if a == ForSit {
      SentadoIsHeard();
      assert Driver(s) == Voice("sentado", false);
    } else if a == ForPaw {
      PataIsHeard();
      assert Driver(s) == Voice("pata", true);
    }
  }

  lemma ScriptInsideLevel(nivel: int, paso: int)
    requires 1 <= nivel <= 3 && 1 <= paso < LastStep(nivel)
    ensures Script(nivel, paso) in {ForSit, ForPaw, ForCookie, ForPet, ForBall}
  {
  }

  lemma TimerMoves(s: Estado)
    requires Inv(s) && s.temporizador != NoTimer
    ensures Step(s, Elapsed(s.temporizador)).temporizador != s.temporizador
  {
  }

  // -----------------------------------------------------------------------
  // Level 3 with the click handlers as written
  // -----------------------------------------------------------------------

  /** Nothing is awaited and no timer is pending: no event can move the
      script any more. */
  predicate Dead(s: Estado) {
    s.temporizador == NoTimer && s.esperas == Ninguna
  }

  /** With the handlers as written, clicking the pet button at level 3
      step 3 (where the script arms it) clears the flag without advancing. */
  lemma PetAtStep3AsWritten(s: Estado)
    requires Inv(s) && s.temporizador == NoTimer && s.nivelActual == 3 && s.pasoActual == 3
    ensures var r := StepAsWritten(s, PetClick);
            Dead(r) && r.nivelActual == 3 && r.pasoActual == 3
  {
  }

  /** A dead state stays dead, at the same step, whatever happens. */
  lemma DeadStepAsWritten(s: Estado, e: Event)
    requires Dead(s)
    ensures var r := StepAsWritten(s, e);
            Dead(r) && r.nivelActual == s.nivelActual && r.pasoActual == s.pasoActual
  {
  }

  lemma {:induction false} DeadRunAsWritten(s: Estado, es: seq<Event>)
    requires Dead(s)
    ensures var r := RunAsWritten(s, es);
            Dead(r) && r.nivelActual == s.nivelActual && r.pasoActual == s.pasoActual
    decreases |es|
  {
    if |es| > 0 {
      DeadStepAsWritten(s, es[0]);
      DeadRunAsWritten(StepAsWritten(s, es[0]), es[1..]);
    }
  }

  /** The first two steps of level 3 (sit, then paw). */
  lemma Level3VoiceSteps(s: Estado)
    requires Inv(s) && s.temporizador == NoTimer && s.nivelActual == 3 && s.pasoActual == 1
    ensures var r := Step(Step(s, Voice("sentado", false)), Voice("pata", true));
            Inv(r) && r.temporizador == NoTimer && r.nivelActual == 3 && r.pasoActual == 3
  {
    SentadoIsHeard();
    Progress(s, Voice("sentado", false));
    var s1 := Step(s, Voice("sentado", false));
    AdvanceKeepsInv(s, s1);
    PataIsHeard();
    Progress(s1, Voice("pata", true));
    AdvanceKeepsInv(s1, Step(s1, Voice("pata", true)));
  }

  /** As written, level 3 never ends: after sit, paw and the pet click the
      controller stays at step 3 whatever events `es` follow, and the
      "¡Finalizamos…!" step and the restart are never reached. */
  lemma AsWrittenGetsStuck(s: Estado, es: seq<Event>)
    requires Inv(s) && s.temporizador == NoTimer && s.nivelActual == 3 && s.pasoActual == 1
    ensures var atascado := RunAsWritten(s, [Voice("sentado", false), Voice("pata", true), PetClick]);
            var r := RunAsWritten(atascado, es);
            r.nivelActual == 3 && r.pasoActual == 3 && r.temporizador == NoTimer
  {
    Level3VoiceSteps(s);
    var s2 := Step(Step(s, Voice("sentado", false)), Voice("pata", true));
    assert RunAsWritten(s, [Voice("sentado", false), Voice("pata", true), PetClick]) == StepAsWritten(s2, PetClick);
    PetAtStep3AsWritten(s2);
    DeadRunAsWritten(StepAsWritten(s2, PetClick), es);
  }

  // -----------------------------------------------------------------------
  // The as-written machine reaches level 3 from Start
  // -----------------------------------------------------------------------

  /** Only the pet and ball clicks are handled differently as written, and
      only at level 3. */
  lemma AsWrittenAgrees(s: Estado, e: Event)
    requires s.nivelActual != 3 || !(e.PetClick? || e.BallClick?)
    ensures StepAsWritten(s, e) == Step(s, e)
  {
  }

  lemma {:induction false} RunAsWrittenAppend(s: Estado, a: seq<Event>, b: seq<Event>)
    ensures RunAsWritten(s, a + b) == RunAsWritten(RunAsWritten(s, a), b)
    decreases |a|
  {
    if |a| == 0 {
      assert a + b == b;
    } else {
      var t := StepAsWritten(s, a[0]);
      assert (a + b)[0] == a[0] && (a + b)[1..] == a[1..] + b;
      assert RunAsWritten(s, a + b) == RunAsWritten(t, a[1..] + b);
      RunAsWrittenAppend(t, a[1..], b);
    }
  }

  lemma RunAsWritten1(s: Estado, a: Event)
    ensures RunAsWritten(s, [a]) == StepAsWritten(s, a)
  {
    assert [a][1..] == [];
  }

  lemma RunAsWritten2(s: Estado, a: Event, b: Event)
    ensures RunAsWritten(s, [a, b]) == StepAsWritten(StepAsWritten(s, a), b)
  {
    assert [a, b][1..] == [b];
    RunAsWritten1(StepAsWritten(s, a), b);
  }

  /** Level `n` closed: every flag down, the level-change wait pending. */
  predicate Cerrado(r: Estado, n: int) {
    r.nivelActual == n && r.pasoActual == LastStep(n) && r.temporizador == LevelAdvanceDue && r.esperas == Ninguna
  }

  /** The first step of level `n`, nothing else pending. */
  predicate EnInicio(s: Estado, n: int) {
    s.temporizador == NoTimer && s.nivelActual == n && s.pasoActual == 1 && s.esperas == Only(Script(n, 1))
  }

  lemma EnInicioInv(s: Estado, n: int)
    requires 1 <= n <= 3 && EnInicio(s, n)
    ensures Inv(s)
  {
  }

  /** A step of level 1 or 2 that waits for an input: what `Inv` says of
      such a state. */
  predicate EnPaso(s: Estado) {
    && s.temporizador == NoTimer && (s.nivelActual == 1 || s.nivelActual == 2)
    && 1 <= s.pasoActual < LastStep(s.nivelActual)
    && s.esperas == Only(Script(s.nivelActual, s.pasoActual))
    && (s.nivelActual == 1 && s.pasoActual >= 2 ==> s.comandoComprendido == (s.pasoActual >= 5))
  }

  lemma EnPasoInv(s: Estado)
    requires EnPaso(s)
    ensures Inv(s)
  {
  }

  /** `t` is one step of the level of `s` further: waiting at the next step,
      or closed when that step is terminal. */
  predicate Siguiente(s: Estado, t: Estado) {
    && t.nivelActual == s.nivelActual && t.pasoActual == s.pasoActual + 1
    && (t.pasoActual < LastStep(s.nivelActual) ==> EnPaso(t))
    && (t.pasoActual >= LastStep(s.nivelActual) ==> Cerrado(t, s.nivelActual))
  }

  /** A state the script advanced from a waiting step of level 1 or 2 is the
      next waiting step, or the closed level. */
  lemma InvSiguiente(s: Estado, t: Estado)
    requires EnPaso(s) && Inv(t) && AdvancedByScript(s, t)
    ensures Siguiente(s, t)
  {
    if t.pasoActual < LastStep(s.nivelActual) {
      ScriptInsideLevel(s.nivelActual, t.pasoActual);
    }
  }

  /** Under the click handlers as written, an input that answers the current
      step of level 1 or 2 moves to the next step, and closes the level when
      that step is terminal. */
  lemma AtiendeAsWritten(s: Estado, e: Event)
    requires EnPaso(s) && Atiende(e, Script(s.nivelActual, s.pasoActual))
    ensures Siguiente(s, StepAsWritten(s, e))
  {
    EnPasoInv(s);
    ScriptInsideLevel(s.nivelActual, s.pasoActual);
    Progress(s, e);
    AsWrittenAgrees(s, e);
    AdvanceKeepsInv(s, Step(s, e));
    InvSiguiente(s, Step(s, e));
  }

  /** `es` answers the script of level `n` from step `p` up to its terminal
      step, one input per step. */
  predicate Sigue(es: seq<Event>, n: int, p: int)
    decreases |es|
  {
    && |es| > 0 && Atiende(es[0], Script(n, p))
    && if p + 1 < LastStep(n) then Sigue(es[1..], n, p + 1) else |es| == 1
  }

  /** Under the click handlers as written, inputs that follow the script of
      level 1 or 2 from the current step close the level: its terminal step
      is reached and the level-change wait pending. */
  lemma {:induction false} SigueAsWritten(s: Estado, es: seq<Event>)
    requires EnPaso(s) && Sigue(es, s.nivelActual, s.pasoActual)
    ensures Cerrado(RunAsWritten(s, es), s.nivelActual)
    decreases |es|
  {
    AtiendeAsWritten(s, es[0]);
    var t := StepAsWritten(s, es[0]);
    assert RunAsWritten(s, es) == RunAsWritten(t, es[1..]);
    if s.pasoActual + 1 < LastStep(s.nivelActual) {
      SigueAsWritten(t, es[1..]);
    }
  }

  /** The input that answers `a`, with `sit` and `pata` as the phrases the
      user says for the two voice steps. */
  function Respuesta(a: Await, sit: string, pata: string): Event {
    match a
    case ForSit => Voice(sit, false)
    case ForPaw => Voice(pata, true)
    case ForCookie => CookieClick
    case ForPet => PetClick
    case ForBall => BallClick
    case _ => AnimationSettled
  }

  /** Level `n` played as its script asks from step `p` up to its terminal
      step: level 1 is sit, paw, cookie, sit, paw, cookie; level 2 is sit,
      cookie, paw, pet. */
  function Jugar(n: int, p: int, sit: string, pata: string): seq<Event>
    decreases LastStep(n) - p
  {
    if p < 1 || p >= LastStep(n) then [] else [Respuesta(Script(n, p), sit, pata)] + Jugar(n, p + 1, sit, pata)
  }

  lemma JugarNivel1(sit: string, pata: string)
    ensures Jugar(1, 1, sit, pata)
            == [Voice(sit, false), Voice(pata, true), CookieClick, Voice(sit, false), Voice(pata, true), CookieClick]
  {
  }

  lemma JugarNivel2(sit: string, pata: string)
    ensures Jugar(2, 1, sit, pata) == [Voice(sit, false), CookieClick, Voice(pata, true), PetClick]
  {
  }

  lemma RespuestaAtiende(a: Await, sit: string, pata: string)
    requires a in {ForSit, ForPaw, ForCookie, ForPet, ForBall} && OyeSentado(sit) && OyePata(pata)
    ensures Atiende(Respuesta(a, sit, pata), a)
  {
  }

  lemma JugarUnfold(n: int, p: int, sit: string, pata: string)
    requires 1 <= p < LastStep(n)
    ensures Jugar(n, p, sit, pata) == [Respuesta(Script(n, p), sit, pata)] + Jugar(n, p + 1, sit, pata)
  {
  }

  /** Playing from a waiting step answers that step first. */
  lemma JugarCabeza(n: int, p: int, sit: string, pata: string)
    requires (n == 1 || n == 2) && 1 <= p < LastStep(n) && OyeSentado(sit) && OyePata(pata)
    ensures var es := Jugar(n, p, sit, pata);
            && |es| > 0 && Atiende(es[0], Script(n, p)) && es[1..] == Jugar(n, p + 1, sit, pata)
  {
    var r, resto := Respuesta(Script(n, p), sit, pata), Jugar(n, p + 1, sit, pata);
    ScriptInsideLevel(n, p);
    RespuestaAtiende(Script(n, p), sit, pata);
    JugarUnfold(n, p, sit, pata);
    assert ([r] + resto)[0] == r && ([r] + resto)[1..] == resto;
  }

  lemma SigueCons(es: seq<Event>, n: int, p: int)
    requires |es| > 0 && Atiende(es[0], Script(n, p))
    requires p + 1 < LastStep(n) ==> Sigue(es[1..], n, p + 1)
    requires p + 1 >= LastStep(n) ==> |es| == 1
    ensures Sigue(es, n, p)
  {
  }

  /** Playing level 1 or 2 from one of its waiting steps follows its
      script. */
  lemma {:induction false} JugarSigue(n: int, p: int, sit: string, pata: string)
    requires (n == 1 || n == 2) && 1 <= p < LastStep(n) && OyeSentado(sit) && OyePata(pata)
    ensures Sigue(Jugar(n, p, sit, pata), n, p)
    decreases LastStep(n) - p
  {
    JugarCabeza(n, p, sit, pata);
    if p + 1 < LastStep(n) {
      JugarSigue(n, p + 1, sit, pata);
    } else {
      assert Jugar(n, p + 1, sit, pata) == [];
    }
    SigueCons(Jugar(n, p, sit, pata), n, p);
  }

  /** The level-change timer, then the next-level timer. */
  const CambioDeNivel: seq<Event> := [Elapsed(LevelAdvanceDue), Elapsed(NextLevelDue)]

  /** From `Start` to the first step of level 3. */
  function HastaNivel3(sit: string, pata: string): seq<Event> {
    [Elapsed(StartupDue)] + (Jugar(1, 1, sit, pata) + CambioDeNivel) + (Jugar(2, 1, sit, pata) + CambioDeNivel)
  }

  /** The two waits after level 1 or 2 start the next level at its first
      step. */
  lemma LevelChangeAsWritten(s: Estado)
    requires (s.nivelActual == 1 || s.nivelActual == 2) && Cerrado(s, s.nivelActual)
    ensures EnInicio(RunAsWritten(s, CambioDeNivel), s.nivelActual + 1)
  {
    RunAsWritten2(s, Elapsed(LevelAdvanceDue), Elapsed(NextLevelDue));
  }

  /** The warm-up wait starts level 1. */
  lemma StartupAsWritten()
    ensures EnInicio(RunAsWritten(Inicial(), [Elapsed(StartupDue)]), 1)
  {
    RunAsWritten1(Inicial(), Elapsed(StartupDue));
  }

  /** A level of the first two played as its script asks, then the change of
      level, reach the first step of the next level. */
  lemma LevelAsWritten(s: Estado, sit: string, pata: string)
    requires (s.nivelActual == 1 || s.nivelActual == 2) && EnInicio(s, s.nivelActual)
    requires OyeSentado(sit) && OyePata(pata)
    ensures EnInicio(RunAsWritten(s, Jugar(s.nivelActual, 1, sit, pata) + CambioDeNivel), s.nivelActual + 1)
  {
    var es := Jugar(s.nivelActual, 1, sit, pata);
    JugarSigue(s.nivelActual, 1, sit, pata);
    SigueAsWritten(s, es);
    LevelChangeAsWritten(RunAsWritten(s, es));
    RunAsWrittenAppend(s, es, CambioDeNivel);
  }

  /** The as-written machine reaches the first step of level 3 from `Start`
      when the user plays levels 1 and 2 as the script asks, so the states
      `AsWrittenGetsStuck` starts from are reachable. */
  lemma AsWrittenReachesLevel3(sit: string, pata: string)
    requires OyeSentado(sit) && OyePata(pata)
    ensures EnInicio(RunAsWritten(Inicial(), HastaNivel3(sit, pata)), 3)
  {
    var inicio := [Elapsed(StartupDue)];
    var uno := Jugar(1, 1, sit, pata) + CambioDeNivel;
    var dos := Jugar(2, 1, sit, pata) + CambioDeNivel;
    StartupAsWritten();
    var s1 := RunAsWritten(Inicial(), inicio);
    LevelAsWritten(s1, sit, pata);
    LevelAsWritten(RunAsWritten(s1, uno), sit, pata);
    RunAsWrittenAppend(Inicial(), inicio, uno);
    RunAsWrittenAppend(Inicial(), inicio + uno, dos);
  }

  /** The stuck scenario from `Start`: play levels 1 and 2, then sit, paw
      and the pet button in level 3, and whatever follows leaves the
      controller at level 3 step 3 forever. */
  lemma AsWrittenStuckFromStart(es: seq<Event>)
    ensures var r := RunAsWritten(Inicial(), HastaNivel3("sentado", "pata")
                                             + [Voice("sentado", false), Voice("pata", true), PetClick] + es);
            r.nivelActual == 3 && r.pasoActual == 3 && r.temporizador == NoTimer
  {
    var camino := HastaNivel3("sentado", "pata");
    var nivel3 := [Voice("sentado", false), Voice("pata", true), PetClick];
    SentadoIsHeard();
    PataIsHeard();
    AsWrittenReachesLevel3("sentado", "pata");
    EnInicioInv(RunAsWritten(Inicial(), camino), 3);
    AsWrittenGetsStuck(RunAsWritten(Inicial(), camino), es);
    RunAsWrittenAppend(Inicial(), camino, nivel3);
    RunAsWrittenAppend(Inicial(), camino + nivel3, es);
  }

  /** With the handlers that advance at the armed steps the same inputs
      plus the ball click finish level 3 and schedule the restart. */
  lemma CorrectedLevel3Finishes(s: Estado)
    requires Inv(s) && s.temporizador == NoTimer && s.nivelActual == 3 && s.pasoActual == 1
    ensures var r := Run(s, [Voice("sentado", false), Voice("pata", true), PetClick, BallClick]);
            r.nivelActual == 3 && r.pasoActual == 5 && r.temporizador == FinishDue
  {
    Level3VoiceSteps(s);
    var s2 := Step(Step(s, Voice("sentado", false)), Voice("pata", true));
    Progress(s2, PetClick);
    var s3 := Step(s2, PetClick);
    AdvanceKeepsInv(s2, s3);
    Progress(s3, BallClick);
    assert Run(s, [Voice("sentado", false), Voice("pata", true), PetClick, BallClick]) == Step(s3, BallClick);
  }
}
