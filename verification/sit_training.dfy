/**
  The "Sentado" (sit) training controller, `EntrenamientoSentadoController`.

  Three levels, each a short script of steps. Every step shows an
  instruction and arms one awaiting flag (voice command, cookie, pet or
  ball); the matching input clears the flag, gives feedback and advances the
  step by one. The last step of a level schedules the next level, and the
  last step of level 3 schedules a restart at level 1.

  The state is an immutable record and every callback of the source is a
  pure transition. Coroutine waits are `Timer`s fired by `Elapsed` events.
 */
module SitTraining {
  import opened Text
  import opened Training

  /** Voice keywords for "sit" (already lower case). */
  const ComandosSentado: seq<string> := ["sentado", "siéntate"]

  datatype Estado = Estado(
    nivelActual: int,
    pasoActual: int,
    esperas: Esperas,
    comandoComprendido: bool,
    esperandoFinAnimacion: bool,   // animation cooldown
    instruccion: Instruccion,
    feedback: FeedbackSlot,
    temporizador: Timer,
    efectos: seq<Effect>)

  /** Everything that can happen to the controller. */
  datatype Event =
    | Voice(texto: string)          // onFinalResults of the recogniser
    | CookieClick                   // ClickGalleta
    | PetClick                      // ClickAcariciar
    | BallClick                     // ClickPelota
    | Elapsed(timer: Timer)         // a sequencing wait has run out
    | AnimationSettled              // EsperarFinAnimacion's wait has run out
    | FeedbackExpired(gen: nat)     // a feedback hide timer has run out

  /** The state `Start` leaves: texts empty, models and buttons hidden, the
      warm-up wait of IniciarEntrenamiento pending. */
  function Inicial(): Estado {
    Estado(1, 0, Ninguna, false, false, SinInstruccion, EmptyFeedback, StartupDue, [])
  }

  /** The instructions this controller shows (MostrarInstruccion, with the
      typewriter effect collapsed to one update). */
  datatype Instruccion =
    | SinInstruccion | DiComando | MuestraGalleta | DiNuevamente | DaGalleta | Lograste
    | AcariciaPerrito | SinPremios | YaSabe | JuegaPelota | Finalizamos | Avanzando | Reiniciando

  function InstruccionTexto(i: Instruccion): string {
    match i
    case SinInstruccion => ""
    case DiComando => "Di el comando: \"Siéntate\" o \"Sentado\""
    case MuestraGalleta => "Muestra galleta, dándole clic"
    case DiNuevamente => "Di nuevamente el comando: \"Siéntate\" o \"Sentado\""
    case DaGalleta => "Da la galleta, dando clic"
    case Lograste => "¡Lograste aprender este comando!"
    case AcariciaPerrito => "Acaricia a tu perrito, dando clic en la mano"
    case SinPremios => "Muy bien, tu perrito ya no necesita más premios para hacer el comando."
    case YaSabe => "¡Muy bien! Tu perro ya sabe el comando. Acaricia a tu perrito, dando clic en la mano"
    case JuegaPelota => "Tu perrito merece una mayor recompensa, ¡juega con él! Da clic en la pelota"
    case Finalizamos => "¡Finalizamos el entrenamiento, suerte con tu peludo!"
    case Avanzando => "Avanzando de nivel..."
    case Reiniciando => "Reiniciando entrenamiento..."
  }

  // -----------------------------------------------------------------------
  // The script as data: what each step of each level waits for. This is
  // the reference the hand-written step functions are checked against.
  // -----------------------------------------------------------------------

  const Guion1: seq<Await> := [ForSit, ForCookie, ForSit, ForCookie, Terminal]
  const Guion2: seq<Await> := [ForCookie, ForSit, ForPet, Terminal]
  const Guion3: seq<Await> := [ForSit, ForPet, ForBall, Terminal]

  function Guion(nivel: int): seq<Await> {
    if nivel == 1 then Guion1 else if nivel == 2 then Guion2 else if nivel == 3 then Guion3 else []
  }

  /** What step `paso` of level `nivel` waits for. */
  function Script(nivel: int, paso: int): Await {
    var g := Guion(nivel);
    if 1 <= paso <= |g| then g[paso - 1] else Outside
  }

  /** The timer a level's terminal step starts. */
  function TerminalTimer(nivel: int): Timer {
    if nivel == 3 then FinishDue else LevelAdvanceDue
  }

  /** Level, step, flags, timer and instruction are the same: the sequencer
      has not moved. */
  predicate SameProgress(s: Estado, r: Estado) {
    && r.nivelActual == s.nivelActual
    && r.pasoActual == s.pasoActual
    && r.esperas == s.esperas
    && r.comandoComprendido == s.comandoComprendido
    && r.temporizador == s.temporizador
    && r.instruccion == s.instruccion
  }

  // -----------------------------------------------------------------------
  // Step sequencing
  // -----------------------------------------------------------------------

  function AvanzarPasoNivel1(s: Estado): (r: Estado)
    ensures r.nivelActual == s.nivelActual && r.pasoActual == s.pasoActual + 1
    ensures r.esperas == Arm(s.esperas, Script(1, r.pasoActual))
    ensures r.temporizador == Schedule(s.temporizador, Script(1, r.pasoActual), LevelAdvanceDue)
    ensures r.pasoActual == 1 ==> !r.comandoComprendido
    ensures r.pasoActual == 3 ==> r.comandoComprendido
    ensures r.pasoActual != 1 && r.pasoActual != 3 ==> r.comandoComprendido == s.comandoComprendido
    ensures r.esperandoFinAnimacion == s.esperandoFinAnimacion && r.feedback == s.feedback
    ensures s.efectos <= r.efectos
    ensures SinAnimacion(s.efectos, r.efectos)
  {
    var p := s.pasoActual + 1;
    if p == 1 then
      s.(pasoActual := p, instruccion := DiComando, esperas := s.esperas.(sentado := true),
         comandoComprendido := false)
    else if p == 2 then
      s.(pasoActual := p, instruccion := MuestraGalleta, esperas := s.esperas.(galleta := true),
         efectos := s.efectos + [ShowButton(BotonGalleta)])
    else if p == 3 then
      s.(pasoActual := p, instruccion := DiNuevamente, esperas := s.esperas.(sentado := true),
         comandoComprendido := true)
    else if p == 4 then
      s.(pasoActual := p, instruccion := DaGalleta, esperas := s.esperas.(galleta := true),
         efectos := s.efectos + [ShowButton(BotonGalleta)])
    else if p == 5 then
      s.(pasoActual := p, instruccion := Lograste, temporizador := LevelAdvanceDue,
         efectos := s.efectos + [ShowModel(Corazon)])
    else
      s.(pasoActual := p)
  }

  function AvanzarPasoNivel2(s: Estado): (r: Estado)
    ensures r.nivelActual == s.nivelActual && r.pasoActual == s.pasoActual + 1
    ensures r.esperas == Arm(s.esperas, Script(2, r.pasoActual))
    ensures r.temporizador == Schedule(s.temporizador, Script(2, r.pasoActual), LevelAdvanceDue)
    ensures r.comandoComprendido == s.comandoComprendido
    ensures r.esperandoFinAnimacion == s.esperandoFinAnimacion && r.feedback == s.feedback
    ensures s.efectos <= r.efectos
    ensures SinAnimacion(s.efectos, r.efectos)
  {
    var p := s.pasoActual + 1;
    if p == 1 then
      s.(pasoActual := p, instruccion := MuestraGalleta, esperas := s.esperas.(galleta := true),
         efectos := s.efectos + [ShowButton(BotonGalleta)])
    else if p == 2 then
      s.(pasoActual := p, instruccion := DiComando, esperas := s.esperas.(sentado := true))
    else if p == 3 then
      s.(pasoActual := p, instruccion := AcariciaPerrito, esperas := s.esperas.(acariciar := true),
         efectos := s.efectos + [ShowButton(BotonAcariciar)])
    else if p == 4 then
      s.(pasoActual := p, instruccion := SinPremios, temporizador := LevelAdvanceDue)
    else
      s.(pasoActual := p)
  }

  function AvanzarPasoNivel3(s: Estado): (r: Estado)
    ensures r.nivelActual == s.nivelActual && r.pasoActual == s.pasoActual + 1
    ensures r.esperas == Arm(s.esperas, Script(3, r.pasoActual))
    ensures r.temporizador == Schedule(s.temporizador, Script(3, r.pasoActual), FinishDue)
    ensures r.comandoComprendido == s.comandoComprendido
    ensures r.esperandoFinAnimacion == s.esperandoFinAnimacion && r.feedback == s.feedback
    ensures s.efectos <= r.efectos
    ensures SinAnimacion(s.efectos, r.efectos)
  {
    var p := s.pasoActual + 1;
    if p == 1 then
      s.(pasoActual := p, instruccion := DiComando, esperas := s.esperas.(sentado := true))
    else if p == 2 then
      s.(pasoActual := p, instruccion := YaSabe, esperas := s.esperas.(acariciar := true),
         efectos := s.efectos + [ShowButton(BotonAcariciar)])
    else if p == 3 then
      s.(pasoActual := p, instruccion := JuegaPelota, esperas := s.esperas.(pelota := true),
         efectos := s.efectos + [ShowButton(BotonPelota)])
    else if p == 4 then
      s.(pasoActual := p, instruccion := Finalizamos, temporizador := FinishDue)
    else
      s.(pasoActual := p)
  }

  /** The step function of the current level (levels 1 to 3). */
  function AvanzarPaso(s: Estado): (r: Estado)
    requires 1 <= s.nivelActual <= 3
    ensures r.nivelActual == s.nivelActual && r.pasoActual == s.pasoActual + 1
    ensures r.esperas == Arm(s.esperas, Script(s.nivelActual, r.pasoActual))
    ensures r.temporizador == Schedule(s.temporizador, Script(s.nivelActual, r.pasoActual), TerminalTimer(s.nivelActual))
    ensures r.esperandoFinAnimacion == s.esperandoFinAnimacion && r.feedback == s.feedback
    ensures s.efectos <= r.efectos
    ensures SinAnimacion(s.efectos, r.efectos)
  {
    if s.nivelActual == 1 then AvanzarPasoNivel1(s)
    else if s.nivelActual == 2 then AvanzarPasoNivel2(s)
    else AvanzarPasoNivel3(s)
  }

  /** IniciarNivel1: level 1, step 0, reset the animation, then the first
      step (which awaits the voice command, not yet understood). */
  function IniciarNivel1(s: Estado): (r: Estado)
    ensures r.nivelActual == 1 && r.pasoActual == 1 && !r.comandoComprendido
    ensures r.esperas == s.esperas.(sentado := true) && r.temporizador == s.temporizador
    ensures r.esperandoFinAnimacion == s.esperandoFinAnimacion
    ensures s.efectos + [ResetAnimation] <= r.efectos
  {
    AvanzarPasoNivel1(s.(nivelActual := 1, pasoActual := 0, efectos := s.efectos + [ResetAnimation]))
  }

  /** IniciarNivel2: the first step awaits the cookie. */
  function IniciarNivel2(s: Estado): (r: Estado)
    ensures r.nivelActual == 2 && r.pasoActual == 1 && r.comandoComprendido == s.comandoComprendido
    ensures r.esperas == s.esperas.(galleta := true) && r.temporizador == s.temporizador
    ensures r.esperandoFinAnimacion == s.esperandoFinAnimacion
    ensures s.efectos + [ResetAnimation] <= r.efectos
  {
    AvanzarPasoNivel2(s.(nivelActual := 2, pasoActual := 0, efectos := s.efectos + [ResetAnimation]))
  }

  /** IniciarNivel3: the first step awaits the voice command. */
  function IniciarNivel3(s: Estado): (r: Estado)
    ensures r.nivelActual == 3 && r.pasoActual == 1 && r.comandoComprendido == s.comandoComprendido
    ensures r.esperas == s.esperas.(sentado := true) && r.temporizador == s.temporizador
    ensures r.esperandoFinAnimacion == s.esperandoFinAnimacion
    ensures s.efectos + [ResetAnimation] <= r.efectos
  {
    AvanzarPasoNivel3(s.(nivelActual := 3, pasoActual := 0, efectos := s.efectos + [ResetAnimation]))
  }

  // -----------------------------------------------------------------------
  // Commands and voice
  // -----------------------------------------------------------------------

  /** EjecutarComando: nothing while the cooldown is on; "sentado" triggers
      the animation, shows "¡Sentado!" and starts the cooldown; any other
      command only logs a warning. */
  function EjecutarComando(s: Estado, comando: Command): (r: Estado)
    ensures SameProgress(s, r)
    ensures s.esperandoFinAnimacion || comando != Sentado ==> r == s
    ensures !s.esperandoFinAnimacion && comando == Sentado ==>
              && r.esperandoFinAnimacion
              && r.feedback.text == AvisoSentado
              && r.efectos == s.efectos + [Animate(Sentado)]
  {
    if s.esperandoFinAnimacion then s
    else match comando
      case Sentado =>
        s.(esperandoFinAnimacion := true, feedback := MostrarFeedback(s.feedback, AvisoSentado),
           efectos := s.efectos + [Animate(Sentado)])
      case Pata => s
  }

  /** A reward: show a 3D model and a feedback message. */
  function Recompensa(s: Estado, modelo: Model, aviso: Aviso): (r: Estado)
    ensures SameProgress(s, r) && r.esperandoFinAnimacion == s.esperandoFinAnimacion
    ensures r.feedback.text == aviso && r.efectos == s.efectos + [ShowModel(modelo)]
  {
    s.(feedback := MostrarFeedback(s.feedback, aviso), efectos := s.efectos + [ShowModel(modelo)])
  }

  /** The awaited sit command was heard in training mode: clear the flag;
      at level 1 before the dog "understands" it only earns a "¿?",
      otherwise it plays the animation; then the step advances. */
  function ComandoEsperado(s: Estado): (r: Estado)
    requires s.esperas.sentado
    ensures 1 <= s.nivelActual <= 3 ==>
              && r.nivelActual == s.nivelActual && r.pasoActual == s.pasoActual + 1
              && r.esperas == Arm(s.esperas.(sentado := false), Script(s.nivelActual, r.pasoActual))
              && r.temporizador == Schedule(s.temporizador, Script(s.nivelActual, r.pasoActual), TerminalTimer(s.nivelActual))
    ensures !(1 <= s.nivelActual <= 3) ==> r == s.(esperas := s.esperas.(sentado := false))
    ensures s.efectos <= r.efectos
    ensures s.nivelActual == 1 && !s.comandoComprendido ==>
              && r.feedback.text == Duda && r.esperandoFinAnimacion == s.esperandoFinAnimacion
              && s.efectos + [ShowModel(Interrogacion)] <= r.efectos && SinAnimacion(s.efectos, r.efectos)
    ensures 1 <= s.nivelActual <= 3 && !(s.nivelActual == 1 && !s.comandoComprendido) ==>
              && r.esperandoFinAnimacion
              && (!s.esperandoFinAnimacion ==>
                    r.feedback.text == AvisoSentado && s.efectos + [Animate(Sentado)] <= r.efectos)
              && (s.esperandoFinAnimacion ==> r.feedback == s.feedback && SinAnimacion(s.efectos, r.efectos))
  {
    var s := s.(esperas := s.esperas.(sentado := false));
    if s.nivelActual == 1 && !s.comandoComprendido then
      AvanzarPaso(Recompensa(s, Interrogacion, Duda))
    else if 1 <= s.nivelActual <= 3 then
      AvanzarPaso(EjecutarComando(s, Sentado))
    else
      s
  }

  /** ProcesarComandoVoz: while a voice step is awaited a sit keyword
      satisfies it and anything else is ignored; otherwise (free mode) a sit
      keyword plays the animation unless the cooldown is on. */
  function ProcesarComandoVoz(s: Estado, textoReconocido: string): (r: Estado)
    ensures var hit := ContienePalabra(Normalize(textoReconocido), ComandosSentado);
            && (s.esperas.sentado ==> r == if hit then ComandoEsperado(s) else s)
            && (!s.esperas.sentado ==> r == if hit then EjecutarComando(s, Sentado) else s)
  {
    var textoLower := Normalize(textoReconocido);
    if s.esperas.sentado then
      if ContienePalabra(textoLower, ComandosSentado) then ComandoEsperado(s) else s
    else if !s.esperandoFinAnimacion then
      if ContienePalabra(textoLower, ComandosSentado) then EjecutarComando(s, Sentado) else s
    else
      s
  }

  // -----------------------------------------------------------------------
  // Buttons
  // -----------------------------------------------------------------------

  /** ClickGalleta: with the flag set, clears it and hides the button; then
      advances (with a "¡!" at level 1 step 2 and at level 2) at level 1
      steps 2 and 4 and at any step of level 2. */
  function ClickGalleta(s: Estado): (r: Estado)
    ensures !s.esperas.galleta ==> r == s
    ensures var avanza := (s.nivelActual == 1 && (s.pasoActual == 2 || s.pasoActual == 4)) || s.nivelActual == 2;
            var limpio := s.(esperas := s.esperas.(galleta := false));
            && (s.esperas.galleta && avanza ==>
                  && r.nivelActual == s.nivelActual && r.pasoActual == s.pasoActual + 1
                  && r.esperas == Arm(limpio.esperas, Script(s.nivelActual, r.pasoActual))
                  && r.temporizador == Schedule(s.temporizador, Script(s.nivelActual, r.pasoActual), LevelAdvanceDue))
            && (s.esperas.galleta && !avanza ==> SameProgress(limpio, r) && r.feedback == s.feedback)
    ensures r.esperandoFinAnimacion == s.esperandoFinAnimacion
    ensures s.efectos <= r.efectos
    ensures s.esperas.galleta ==> s.efectos + [HideButton(BotonGalleta)] <= r.efectos
  {
    if s.esperas.galleta then
      var s := s.(esperas := s.esperas.(galleta := false), efectos := s.efectos + [HideButton(BotonGalleta)]);
      if s.nivelActual == 1 && s.pasoActual == 2 then
        AvanzarPasoNivel1(Recompensa(s, Admiracion, Asombro))
      else if s.nivelActual == 1 && s.pasoActual == 4 then
        AvanzarPasoNivel1(s)
      else if s.nivelActual == 2 then
        AvanzarPasoNivel2(Recompensa(s, Admiracion, Asombro))
      else
        s
    else
      s
  }

  /** ClickAcariciar: advances, with a heart, at level 2 step 3 and level 3
      step 2. */
  function ClickAcariciar(s: Estado): (r: Estado)
    ensures !s.esperas.acariciar ==> r == s
    ensures var avanza := (s.nivelActual == 2 && s.pasoActual == 3) || (s.nivelActual == 3 && s.pasoActual == 2);
            var limpio := s.(esperas := s.esperas.(acariciar := false));
            && (s.esperas.acariciar && avanza ==>
                  && r.nivelActual == s.nivelActual && r.pasoActual == s.pasoActual + 1
                  && r.feedback.text == Carino
                  && r.esperas == Arm(limpio.esperas, Script(s.nivelActual, r.pasoActual))
                  && r.temporizador == Schedule(s.temporizador, Script(s.nivelActual, r.pasoActual), TerminalTimer(s.nivelActual)))
            && (s.esperas.acariciar && !avanza ==> SameProgress(limpio, r) && r.feedback == s.feedback)
    ensures r.esperandoFinAnimacion == s.esperandoFinAnimacion
    ensures s.efectos <= r.efectos
    ensures s.esperas.acariciar ==> s.efectos + [HideButton(BotonAcariciar)] <= r.efectos
  {
    if s.esperas.acariciar then
      var s := s.(esperas := s.esperas.(acariciar := false), efectos := s.efectos + [HideButton(BotonAcariciar)]);
      if (s.nivelActual == 2 && s.pasoActual == 3) || (s.nivelActual == 3 && s.pasoActual == 2) then
        AvanzarPaso(Recompensa(s, Corazon, Carino))
      else
        s
    else
      s
  }

  /** ClickPelota: advances, with a heart, only at level 3 step 3. */
  function ClickPelota(s: Estado): (r: Estado)
    ensures !s.esperas.pelota ==> r == s
    ensures var avanza := s.nivelActual == 3 && s.pasoActual == 3;
            var limpio := s.(esperas := s.esperas.(pelota := false));
            && (s.esperas.pelota && avanza ==>
                  && r.nivelActual == 3 && r.pasoActual == 4
                  && r.feedback.text == Carino
                  && r.esperas == limpio.esperas && r.temporizador == FinishDue)
            && (s.esperas.pelota && !avanza ==> SameProgress(limpio, r) && r.feedback == s.feedback)
    ensures r.esperandoFinAnimacion == s.esperandoFinAnimacion
    ensures s.efectos <= r.efectos
    ensures s.esperas.pelota ==> s.efectos + [HideButton(BotonPelota)] <= r.efectos
  {
    if s.esperas.pelota then
      var s := s.(esperas := s.esperas.(pelota := false), efectos := s.efectos + [HideButton(BotonPelota)]);
      if s.nivelActual == 3 && s.pasoActual == 3 then
        AvanzarPasoNivel3(Recompensa(s, Corazon, Carino))
      else
        s
    else
      s
  }

  // -----------------------------------------------------------------------
  // Timers
  // -----------------------------------------------------------------------

  /** IniciarEntrenamiento after its warm-up wait. */
  function IniciarEntrenamiento(s: Estado): (r: Estado)
    ensures r.nivelActual == 1 && r.pasoActual == 1 && r.temporizador == NoTimer
    ensures r.esperas == s.esperas.(sentado := true) && !r.comandoComprendido
  {
    IniciarNivel1(s.(temporizador := NoTimer))
  }

  /** First wait of AvanzarDeNivel: announce, raise the level, reset the
      animation and wait again. */
  function AvanzarDeNivel(s: Estado): (r: Estado)
    ensures r.nivelActual == s.nivelActual + 1 && r.pasoActual == s.pasoActual
    ensures r.temporizador == NextLevelDue && r.esperas == s.esperas
    ensures r.efectos == s.efectos + [ResetAnimation]
  {
    s.(instruccion := Avanzando, nivelActual := s.nivelActual + 1, temporizador := NextLevelDue,
       efectos := s.efectos + [ResetAnimation])
  }

  /** Second wait of AvanzarDeNivel: start level 2 or 3, or announce the
      restart once the level has passed 3. */
  function IniciarSiguienteNivel(s: Estado): (r: Estado)
    ensures (s.nivelActual == 2 || s.nivelActual == 3) ==>
              && r.nivelActual == s.nivelActual && r.pasoActual == 1 && r.temporizador == NoTimer
              && r.esperas == Arm(s.esperas, Script(s.nivelActual, 1))
    ensures s.nivelActual > 3 ==>
              && r.temporizador == RestartDue && r.esperas == s.esperas
              && r.nivelActual == s.nivelActual && r.pasoActual == s.pasoActual
              && r.instruccion == Reiniciando
    ensures s.nivelActual < 2 ==> r == s.(temporizador := NoTimer)
  {
    var s := s.(temporizador := NoTimer);
    if s.nivelActual == 2 then IniciarNivel2(s)
    else if s.nivelActual == 3 then IniciarNivel3(s)
    else if s.nivelActual > 3 then s.(instruccion := Reiniciando, temporizador := RestartDue)
    else s
  }

  /** First wait of FinalizarEntrenamiento: announce the restart. */
  function FinalizarEntrenamiento(s: Estado): (r: Estado)
    ensures r.temporizador == RestartDue && r.esperas == s.esperas
    ensures r.nivelActual == s.nivelActual && r.pasoActual == s.pasoActual
    ensures r.instruccion == Reiniciando
  {
    s.(instruccion := Reiniciando, temporizador := RestartDue)
  }

  /** Last wait before a restart: level 0, then IniciarNivel1. */
  function Reiniciar(s: Estado): (r: Estado)
    ensures r.nivelActual == 1 && r.pasoActual == 1 && r.temporizador == NoTimer
    ensures r.esperas == s.esperas.(sentado := true) && !r.comandoComprendido
  {
    IniciarNivel1(s.(temporizador := NoTimer, nivelActual := 0))
  }

  /** The pending sequencing timer runs out. */
  function Vencer(s: Estado): Estado {
    match s.temporizador
    case NoTimer => s
    case StartupDue => IniciarEntrenamiento(s)
    case LevelAdvanceDue => AvanzarDeNivel(s)
    case NextLevelDue => IniciarSiguienteNivel(s)
    case FinishDue => FinalizarEntrenamiento(s)
    case RestartDue => Reiniciar(s)
  }

  /** The controller's reaction to one event. */
  function Step(s: Estado, e: Event): Estado {
    match e
    case Voice(t) => ProcesarComandoVoz(s, t)
    case CookieClick => ClickGalleta(s)
    case PetClick => ClickAcariciar(s)
    case BallClick => ClickPelota(s)
    case Elapsed(t) => if t == s.temporizador then Vencer(s) else s
    case AnimationSettled => s.(esperandoFinAnimacion := false)
    case FeedbackExpired(g) => s.(feedback := OcultarFeedback(s.feedback, g))
  }

  function Run(s: Estado, es: seq<Event>): Estado
    decreases |es|
  {
    if |es| == 0 then s else Run(Step(s, es[0]), es[1..])
  }
}
