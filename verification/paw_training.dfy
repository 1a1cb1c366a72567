/**
  The "Pata" (give the paw) training controller, `EntPataController`.

  The same three-level machine as the sit controller, but every level first
  asks the dog to sit and only then for the paw. Two voice flags gate the
  recogniser: while `esperas.sentado` is set only a sit keyword counts,
  while `esperas.pata` is set only a paw keyword counts. Outside training
  steps a paw command needs the dog to be seated, which the source reads
  from the animator; here that reading arrives with the voice event.

  Level 3 of this controller arms the pet button at step 3 and the ball at
  step 4, while the click handlers as written advance only at steps 2 and
  3. `ClickAcariciarAsWritten` and `ClickPelotaAsWritten` keep the code as
  written (see `PawProperties.AsWrittenGetsStuck`); `ClickAcariciar` and
  `ClickPelota` advance at the armed steps and are what `Step` uses.
 */
module PawTraining {
  import opened Text
  import opened Training

  /** Voice keywords, already lower case. */
  const ComandosSentado: seq<string> := ["sentado", "siéntate"]
  const ComandosPata: seq<string> := ["pata", "dame la pata", "la pata"]

  datatype Estado = Estado(
    nivelActual: int,
    pasoActual: int,
    esperas: Esperas,              // sentado: esperandoComandoSentado, pata: esperandoComando
    comandoComprendido: bool,
    esperandoFinAnimacion: bool,   // animation cooldown
    instruccion: Instruccion,
    feedback: FeedbackSlot,
    temporizador: Timer,
    efectos: seq<Effect>)

  /** Everything that can happen to the controller. `perroSentado` is what
      the animator reports when the phrase arrives: whether the dog is in
      the "Sentado" state. */
  datatype Event =
    | Voice(texto: string, perroSentado: bool)
    | CookieClick
    | PetClick
    | BallClick
    | Elapsed(timer: Timer)
    | AnimationSettled
    | FeedbackExpired(gen: nat)

  /** The state `Start` leaves: texts empty, models and buttons hidden, the
      warm-up wait of IniciarEntrenamiento pending. */
  function Inicial(): Estado {
    Estado(1, 0, Ninguna, false, false, SinInstruccion, EmptyFeedback, StartupDue, [])
  }

  /** The instructions this controller shows. */
  datatype Instruccion =
    | SinInstruccion | DiSentado | DiPata | MuestraGalleta | DiSentadoOtraVez | DiPataOtraVez
    | DaGalleta | Lograste | SoloDiPata | AcariciaPerrito | CasiSinPremios | YaSabe
    | JuegaPelota | Finalizamos | Avanzando | Reiniciando

  function InstruccionTexto(i: Instruccion): string {
    match i
    case SinInstruccion => ""
    case DiSentado => "Primero di: \"Siéntate\" o \"Sentado\""
    case DiPata => "Ahora di: \"Pata\" o \"Dame la pata\""
    case MuestraGalleta => "Muestra galleta, dándole clic"
    case DiSentadoOtraVez => "Di nuevamente: \"Siéntate\" o \"Sentado\""
    case DiPataOtraVez => "Di otra vez: \"Pata\" o \"Dame la pata\""
    case DaGalleta => "Da la galleta, dando clic"
    case Lograste => "¡Lograste enseñar el comando Pata!"
    case SoloDiPata => "Di: \"Pata\" o \"Dame la pata\""
    case AcariciaPerrito => "Acaricia a tu perrito, dando clic en la mano"
    case CasiSinPremios => "Muy bien, tu perrito ya casi no necesita premios para dar la pata."
    case YaSabe => "¡Muy bien! Tu perro ya sabe el comando. Acaricia a tu perrito, dando clic en la mano"
    case JuegaPelota => "Tu perrito merece una mayor recompensa, ¡juega con él! Da clic en la pelota"
    case Finalizamos => "¡Finalizamos el entrenamiento, suerte con tu peludo!"
    case Avanzando => "Avanzando de nivel..."
    case Reiniciando => "Reiniciando entrenamiento..."
  }

  // -----------------------------------------------------------------------
  // The script as data
  // -----------------------------------------------------------------------

  const Guion1: seq<Await> := [ForSit, ForPaw, ForCookie, ForSit, ForPaw, ForCookie, Terminal]
  const Guion2: seq<Await> := [ForSit, ForCookie, ForPaw, ForPet, Terminal]
  const Guion3: seq<Await> := [ForSit, ForPaw, ForPet, ForBall, Terminal]

  function Guion(nivel: int): seq<Await> {
    if nivel == 1 then Guion1 else if nivel == 2 then Guion2 else if nivel == 3 then Guion3 else []
  }

  /** What step `paso` of level `nivel` waits for. */
  function Script(nivel: int, paso: int): Await {
    var g := Guion(nivel);
    if 1 <= paso <= |g| then g[paso - 1] else Outside
  }

  /** The timer a level's terminal step starts. */
  function TerminalTimer(nivel: int): Timer {
    if nivel == 3 then FinishDue else LevelAdvanceDue
  }

  /** Level, step, flags, timer and instruction are the same. */
  predicate SameProgress(s: Estado, r: Estado) {
    && r.nivelActual == s.nivelActual
    && r.pasoActual == s.pasoActual
    && r.esperas == s.esperas
    && r.comandoComprendido == s.comandoComprendido
    && r.temporizador == s.temporizador
    && r.instruccion == s.instruccion
  }

  // -----------------------------------------------------------------------
  // Step sequencing
  // -----------------------------------------------------------------------

  function AvanzarPasoNivel1(s: Estado): (r: Estado)
    ensures r.nivelActual == s.nivelActual && r.pasoActual == s.pasoActual + 1
    ensures r.esperas == Arm(s.esperas, Script(1, r.pasoActual))
    ensures r.temporizador == Schedule(s.temporizador, Script(1, r.pasoActual), LevelAdvanceDue)
    ensures r.pasoActual == 2 ==> !r.comandoComprendido
    ensures r.pasoActual == 5 ==> r.comandoComprendido
    ensures r.pasoActual != 2 && r.pasoActual != 5 ==> r.comandoComprendido == s.comandoComprendido
    ensures r.esperandoFinAnimacion == s.esperandoFinAnimacion && r.feedback == s.feedback
    ensures s.efectos <= r.efectos
    ensures SinAnimacion(s.efectos, r.efectos)
  {
    var p := s.pasoActual + 1;
    if p == 1 then
      s.(pasoActual := p, instruccion := DiSentado, esperas := s.esperas.(sentado := true))
    else if p == 2 then
      s.(pasoActual := p, instruccion := DiPata, esperas := s.esperas.(pata := true),
         comandoComprendido := false)
    else if p == 3 then
      s.(pasoActual := p, instruccion := MuestraGalleta, esperas := s.esperas.(galleta := true),
         efectos := s.efectos + [ShowButton(BotonGalleta)])
    else if p == 4 then
      s.(pasoActual := p, instruccion := DiSentadoOtraVez, esperas := s.esperas.(sentado := true))
    else if p == 5 then
      s.(pasoActual := p, instruccion := DiPataOtraVez, esperas := s.esperas.(pata := true),
         comandoComprendido := true)
    else if p == 6 then
      s.(pasoActual := p, instruccion := DaGalleta, esperas := s.esperas.(galleta := true),
         efectos := s.efectos + [ShowButton(BotonGalleta)])
    else if p == 7 then
      s.(pasoActual := p, instruccion := Lograste, temporizador := LevelAdvanceDue,
         efectos := s.efectos + [ShowModel(Corazon)])
    else
      s.(pasoActual := p)
  }

  function AvanzarPasoNivel2(s: Estado): (r: Estado)
    ensures r.nivelActual == s.nivelActual && r.pasoActual == s.pasoActual + 1
    ensures r.esperas == Arm(s.esperas, Script(2, r.pasoActual))
    ensures r.temporizador == Schedule(s.temporizador, Script(2, r.pasoActual), LevelAdvanceDue)
    ensures r.comandoComprendido == s.comandoComprendido
    ensures r.esperandoFinAnimacion == s.esperandoFinAnimacion && r.feedback == s.feedback
    ensures s.efectos <= r.efectos
    ensures SinAnimacion(s.efectos, r.efectos)
  {
    var p := s.pasoActual + 1;
    if p == 1 then
      s.(pasoActual := p, instruccion := DiSentado, esperas := s.esperas.(sentado := true))
    else if p == 2 then
      s.(pasoActual := p, instruccion := MuestraGalleta, esperas := s.esperas.(galleta := true),
         efectos := s.efectos + [ShowButton(BotonGalleta)])
    else if p == 3 then
      s.(pasoActual := p, instruccion := SoloDiPata, esperas := s.esperas.(pata := true))
    else if p == 4 then
      s.(pasoActual := p, instruccion := AcariciaPerrito, esperas := s.esperas.(acariciar := true),
         efectos := s.efectos + [ShowButton(BotonAcariciar)])
    else if p == 5 then
      s.(pasoActual := p, instruccion := CasiSinPremios, temporizador := LevelAdvanceDue)
    else
      s.(pasoActual := p)
  }

  function AvanzarPasoNivel3(s: Estado): (r: Estado)
    ensures r.nivelActual == s.nivelActual && r.pasoActual == s.pasoActual + 1
    ensures r.esperas == Arm(s.esperas, Script(3, r.pasoActual))
    ensures r.temporizador == Schedule(s.temporizador, Script(3, r.pasoActual), FinishDue)
    ensures r.comandoComprendido == s.comandoComprendido
    ensures r.esperandoFinAnimacion == s.esperandoFinAnimacion && r.feedback == s.feedback
    ensures s.efectos <= r.efectos
    ensures SinAnimacion(s.efectos, r.efectos)
  {
    var p := s.pasoActual + 1;
    if p == 1 then
      s.(pasoActual := p, instruccion := DiSentado, esperas := s.esperas.(sentado := true))
    else if p == 2 then
      s.(pasoActual := p, instruccion := DiPata, esperas := s.esperas.(pata := true))
    else if p == 3 then
      s.(pasoActual := p, instruccion := YaSabe, esperas := s.esperas.(acariciar := true),
         efectos := s.efectos + [ShowButton(BotonAcariciar)])
    else if p == 4 then
      s.(pasoActual := p, instruccion := JuegaPelota, esperas := s.esperas.(pelota := true),
         efectos := s.efectos + [ShowButton(BotonPelota)])
    else if p == 5 then
      s.(pasoActual := p, instruccion := Finalizamos, temporizador := FinishDue)
    else
      s.(pasoActual := p)
  }

  /** The step function of the current level (levels 1 to 3). */
  function AvanzarPaso(s: Estado): (r: Estado)
    requires 1 <= s.nivelActual <= 3
    ensures r.nivelActual == s.nivelActual && r.pasoActual == s.pasoActual + 1
    ensures r.esperas == Arm(s.esperas, Script(s.nivelActual, r.pasoActual))
    ensures r.temporizador == Schedule(s.temporizador, Script(s.nivelActual, r.pasoActual), TerminalTimer(s.nivelActual))
    ensures r.esperandoFinAnimacion == s.esperandoFinAnimacion && r.feedback == s.feedback
    ensures s.efectos <= r.efectos
    ensures SinAnimacion(s.efectos, r.efectos)
  {
    if s.nivelActual == 1 then AvanzarPasoNivel1(s)
    else if s.nivelActual == 2 then AvanzarPasoNivel2(s)
    else AvanzarPasoNivel3(s)
  }

  /** IniciarNivel1: the first step asks the dog to sit. */
  function IniciarNivel1(s: Estado): (r: Estado)
    ensures r.nivelActual == 1 && r.pasoActual == 1 && r.comandoComprendido == s.comandoComprendido
    ensures r.esperas == s.esperas.(sentado := true) && r.temporizador == s.temporizador
    ensures r.esperandoFinAnimacion == s.esperandoFinAnimacion
    ensures s.efectos + [ResetAnimation] <= r.efectos
  {
    AvanzarPasoNivel1(s.(nivelActual := 1, pasoActual := 0, efectos := s.efectos + [ResetAnimation]))
  }

  /** IniciarNivel2: the first step asks the dog to sit. */
  function IniciarNivel2(s: Estado): (r: Estado)
    ensures r.nivelActual == 2 && r.pasoActual == 1 && r.comandoComprendido == s.comandoComprendido
    ensures r.esperas == s.esperas.(sentado := true) && r.temporizador == s.temporizador
    ensures r.esperandoFinAnimacion == s.esperandoFinAnimacion
    ensures s.efectos + [ResetAnimation] <= r.efectos
  {
    AvanzarPasoNivel2(s.(nivelActual := 2, pasoActual := 0, efectos := s.efectos + [ResetAnimation]))
  }

  /** IniciarNivel3: the first step asks the dog to sit. */
  function IniciarNivel3(s: Estado): (r: Estado)
    ensures r.nivelActual == 3 && r.pasoActual == 1 && r.comandoComprendido == s.comandoComprendido
    ensures r.esperas == s.esperas.(sentado := true) && r.temporizador == s.temporizador
    ensures r.esperandoFinAnimacion == s.esperandoFinAnimacion
    ensures s.efectos + [ResetAnimation] <= r.efectos
  {
    AvanzarPasoNivel3(s.(nivelActual := 3, pasoActual := 0, efectos := s.efectos + [ResetAnimation]))
  }

  // -----------------------------------------------------------------------
  // Commands and voice
  // -----------------------------------------------------------------------

  /** EjecutarComando: nothing while the cooldown is on; otherwise play the
      command's animation, show its message and start the cooldown. */
  function EjecutarComando(s: Estado, comando: Command): (r: Estado)
    ensures SameProgress(s, r)
    ensures s.esperandoFinAnimacion ==> r == s
    ensures !s.esperandoFinAnimacion ==>
              && r.esperandoFinAnimacion
              && r.feedback.text == (if comando == Sentado then AvisoSentado else AvisoPata)
              && r.efectos == s.efectos + [Animate(comando)]
  {
    if s.esperandoFinAnimacion then s
    else match comando
      case Sentado =>
        s.(esperandoFinAnimacion := true, feedback := MostrarFeedback(s.feedback, AvisoSentado),
           efectos := s.efectos + [Animate(Sentado)])
      case Pata =>
        s.(esperandoFinAnimacion := true, feedback := MostrarFeedback(s.feedback, AvisoPata),
           efectos := s.efectos + [Animate(Pata)])
  }

  /** A reward: show a 3D model and a feedback message. */
  function Recompensa(s: Estado, modelo: Model, aviso: Aviso): (r: Estado)
    ensures SameProgress(s, r) && r.esperandoFinAnimacion == s.esperandoFinAnimacion
    ensures r.feedback.text == aviso && r.efectos == s.efectos + [ShowModel(modelo)]
  {
    s.(feedback := MostrarFeedback(s.feedback, aviso), efectos := s.efectos + [ShowModel(modelo)])
  }

  /** The awaited sit command was heard: the dog always sits, and the step
      advances. */
  function SentadoEsperado(s: Estado): (r: Estado)
    requires s.esperas.sentado
    ensures 1 <= s.nivelActual <= 3 ==>
              && r.nivelActual == s.nivelActual && r.pasoActual == s.pasoActual + 1
              && r.esperas == Arm(s.esperas.(sentado := false), Script(s.nivelActual, r.pasoActual))
              && r.temporizador == Schedule(s.temporizador, Script(s.nivelActual, r.pasoActual), TerminalTimer(s.nivelActual))
    ensures !(1 <= s.nivelActual <= 3) ==> SameProgress(s.(esperas := s.esperas.(sentado := false)), r)
    ensures s.efectos <= r.efectos
    ensures r.esperandoFinAnimacion
    ensures !s.esperandoFinAnimacion ==>
              r.feedback.text == AvisoSentado && s.efectos + [Animate(Sentado)] <= r.efectos
    ensures s.esperandoFinAnimacion ==> r.feedback == s.feedback && SinAnimacion(s.efectos, r.efectos)
  {
    var s := EjecutarComando(s.(esperas := s.esperas.(sentado := false)), Sentado);
    if 1 <= s.nivelActual <= 3 then AvanzarPaso(s) else s
  }

  /** The awaited paw command was heard: at level 1 before the dog
      "understands" it only earns a "¿?", otherwise it gives the paw; then
      the step advances. */
  function PataEsperada(s: Estado): (r: Estado)
    requires s.esperas.pata
    ensures 1 <= s.nivelActual <= 3 ==>
              && r.nivelActual == s.nivelActual && r.pasoActual == s.pasoActual + 1
              && r.esperas == Arm(s.esperas.(pata := false), Script(s.nivelActual, r.pasoActual))
              && r.temporizador == Schedule(s.temporizador, Script(s.nivelActual, r.pasoActual), TerminalTimer(s.nivelActual))
    ensures !(1 <= s.nivelActual <= 3) ==> r == s.(esperas := s.esperas.(pata := false))
    ensures s.efectos <= r.efectos
    ensures s.nivelActual == 1 && !s.comandoComprendido ==>
              && r.feedback.text == Duda && r.esperandoFinAnimacion == s.esperandoFinAnimacion
              && s.efectos + [ShowModel(Interrogacion)] <= r.efectos && SinAnimacion(s.efectos, r.efectos)
    ensures 1 <= s.nivelActual <= 3 && !(s.nivelActual == 1 && !s.comandoComprendido) ==>
              && r.esperandoFinAnimacion
              && (!s.esperandoFinAnimacion ==>
                    r.feedback.text == AvisoPata && s.efectos + [Animate(Pata)] <= r.efectos)
              && (s.esperandoFinAnimacion ==> r.feedback == s.feedback && SinAnimacion(s.efectos, r.efectos))
  {
    var s := s.(esperas := s.esperas.(pata := false));
    if s.nivelActual == 1 && !s.comandoComprendido then
      AvanzarPaso(Recompensa(s, Interrogacion, Duda))
    else if 1 <= s.nivelActual <= 3 then
      AvanzarPaso(EjecutarComando(s, Pata))
    else
      s
  }

  /** Free mode (no voice step awaited, cooldown off): a sit keyword makes
      the dog sit; otherwise a paw keyword makes a seated dog give the paw,
      and a standing one earns "¡Primero siéntate!". */
  function ModoLibre(s: Estado, textoLower: string, perroSentado: bool): (r: Estado)
    ensures SameProgress(s, r)
    ensures ContienePalabra(textoLower, ComandosSentado) ==> r == EjecutarComando(s, Sentado)
    ensures !ContienePalabra(textoLower, ComandosSentado) && ContienePalabra(textoLower, ComandosPata) ==>
              if perroSentado then r == EjecutarComando(s, Pata)
              else r.feedback.text == PrimeroSientate && r.efectos == s.efectos
    ensures !ContienePalabra(textoLower, ComandosSentado) && !ContienePalabra(textoLower, ComandosPata) ==> r == s
  {
    if ContienePalabra(textoLower, ComandosSentado) then
      EjecutarComando(s, Sentado)
    else if ContienePalabra(textoLower, ComandosPata) then
      if perroSentado then EjecutarComando(s, Pata)
      else s.(feedback := MostrarFeedback(s.feedback, PrimeroSientate))
    else
      s
  }

  /** ProcesarComandoVoz: the sit gate first, then the paw gate, then free
      mode. */
  function ProcesarComandoVoz(s: Estado, textoReconocido: string, perroSentado: bool): (r: Estado)
    ensures var t := Normalize(textoReconocido);
            && (s.esperas.sentado ==>
                  r == if ContienePalabra(t, ComandosSentado) then SentadoEsperado(s) else s)
            && (!s.esperas.sentado && s.esperas.pata ==>
                  r == if ContienePalabra(t, ComandosPata) then PataEsperada(s) else s)
            && (!s.esperas.sentado && !s.esperas.pata ==>
                  r == if s.esperandoFinAnimacion then s else ModoLibre(s, t, perroSentado))
  {
    var textoLower := Normalize(textoReconocido);
    if s.esperas.sentado then
      if ContienePalabra(textoLower, ComandosSentado) then SentadoEsperado(s) else s
    else if s.esperas.pata then
      if ContienePalabra(textoLower, ComandosPata) then PataEsperada(s) else s
    else if !s.esperandoFinAnimacion then
      ModoLibre(s, textoLower, perroSentado)
    else
      s
  }

  // -----------------------------------------------------------------------
  // Buttons
  // -----------------------------------------------------------------------

  /** ClickGalleta: advances at level 1 steps 3 (with a "¡!") and 6, and at
      any step of level 2 (with a "¡!"). */
  function ClickGalleta(s: Estado): (r: Estado)
    ensures !s.esperas.galleta ==> r == s
    ensures var avanza := (s.nivelActual == 1 && (s.pasoActual == 3 || s.pasoActual == 6)) || s.nivelActual == 2;
            var limpio := s.(esperas := s.esperas.(galleta := false));
            && (s.esperas.galleta && avanza ==>
                  && r.nivelActual == s.nivelActual && r.pasoActual == s.pasoActual + 1
                  && r.esperas == Arm(limpio.esperas, Script(s.nivelActual, r.pasoActual))
                  && r.temporizador == Schedule(s.temporizador, Script(s.nivelActual, r.pasoActual), LevelAdvanceDue))
            && (s.esperas.galleta && !avanza ==> SameProgress(limpio, r) && r.feedback == s.feedback)
    ensures r.esperandoFinAnimacion == s.esperandoFinAnimacion
    ensures s.efectos <= r.efectos
    ensures s.esperas.galleta ==> s.efectos + [HideButton(BotonGalleta)] <= r.efectos
  {
    if s.esperas.galleta then
      var s := s.(esperas := s.esperas.(galleta := false), efectos := s.efectos + [HideButton(BotonGalleta)]);
      if s.nivelActual == 1 && s.pasoActual == 3 then
        AvanzarPasoNivel1(Recompensa(s, Admiracion, Asombro))
      else if s.nivelActual == 1 && s.pasoActual == 6 then
        AvanzarPasoNivel1(s)
      else if s.nivelActual == 2 then
        AvanzarPasoNivel2(Recompensa(s, Admiracion, Asombro))
      else
        s
    else
      s
  }

  /** ClickAcariciar as the source writes it: advances, with a heart, at
      level 2 step 4 and at level 3 step 2. */
  function ClickAcariciarAsWritten(s: Estado): (r: Estado)
    ensures !s.esperas.acariciar ==> r == s
    ensures var avanza := (s.nivelActual == 2 && s.pasoActual == 4) || (s.nivelActual == 3 && s.pasoActual == 2);
            var limpio := s.(esperas := s.esperas.(acariciar := false));
            && (s.esperas.acariciar && avanza ==>
                  && r.nivelActual == s.nivelActual && r.pasoActual == s.pasoActual + 1
                  && r.feedback.text == Carino
                  && r.esperas == Arm(limpio.esperas, Script(s.nivelActual, r.pasoActual)))
            && (s.esperas.acariciar && !avanza ==> SameProgress(limpio, r) && r.feedback == s.feedback)
    ensures s.esperas.acariciar ==> s.efectos + [HideButton(BotonAcariciar)] <= r.efectos
  {
    if s.esperas.acariciar then
      var s := s.(esperas := s.esperas.(acariciar := false), efectos := s.efectos + [HideButton(BotonAcariciar)]);
      if (s.nivelActual == 2 && s.pasoActual == 4) || (s.nivelActual == 3 && s.pasoActual == 2) then
        AvanzarPaso(Recompensa(s, Corazon, Carino))
      else
        s
    else
      s
  }

  /** ClickPelota as the source writes it: advances only at level 3 step 3. */
  function ClickPelotaAsWritten(s: Estado): (r: Estado)
    ensures !s.esperas.pelota ==> r == s
    ensures s.esperas.pelota && !(s.nivelActual == 3 && s.pasoActual == 3) ==>
              SameProgress(s.(esperas := s.esperas.(pelota := false)), r) && r.feedback == s.feedback
    ensures s.esperas.pelota && s.nivelActual == 3 && s.pasoActual == 3 ==>
              r.pasoActual == 4 && r.esperas == s.esperas.(pelota := true) && r.feedback.text == Carino
    ensures s.esperas.pelota ==> s.efectos + [HideButton(BotonPelota)] <= r.efectos
  {
    if s.esperas.pelota then
      var s := s.(esperas := s.esperas.(pelota := false), efectos := s.efectos + [HideButton(BotonPelota)]);
      if s.nivelActual == 3 && s.pasoActual == 3 then
        AvanzarPasoNivel3(Recompensa(s, Corazon, Carino))
      else
        s
    else
      s
  }

  /** ClickAcariciar with the level-3 step the script arms it at: level 2
      step 4 and level 3 step 3. */
  function ClickAcariciar(s: Estado): (r: Estado)
    ensures !s.esperas.acariciar ==> r == s
    ensures var avanza := (s.nivelActual == 2 && s.pasoActual == 4) || (s.nivelActual == 3 && s.pasoActual == 3);
            var limpio := s.(esperas := s.esperas.(acariciar := false));
            && (s.esperas.acariciar && avanza ==>
                  && r.nivelActual == s.nivelActual && r.pasoActual == s.pasoActual + 1
                  && r.feedback.text == Carino
                  && r.esperas == Arm(limpio.esperas, Script(s.nivelActual, r.pasoActual))
                  && r.temporizador == Schedule(s.temporizador, Script(s.nivelActual, r.pasoActual), TerminalTimer(s.nivelActual)))
            && (s.esperas.acariciar && !avanza ==> SameProgress(limpio, r) && r.feedback == s.feedback)
    ensures r.esperandoFinAnimacion == s.esperandoFinAnimacion
    ensures s.efectos <= r.efectos
    ensures s.esperas.acariciar ==> s.efectos + [HideButton(BotonAcariciar)] <= r.efectos
  {
    if s.esperas.acariciar then
      var s := s.(esperas := s.esperas.(acariciar := false), efectos := s.efectos + [HideButton(BotonAcariciar)]);
      if (s.nivelActual == 2 && s.pasoActual == 4) || (s.nivelActual == 3 && s.pasoActual == 3) then
        AvanzarPaso(Recompensa(s, Corazon, Carino))
      else
        s
    else
      s
  }

  /** ClickPelota with the step the script arms it at: level 3 step 4. */
  function ClickPelota(s: Estado): (r: Estado)
    ensures !s.esperas.pelota ==> r == s
    ensures var avanza := s.nivelActual == 3 && s.pasoActual == 4;
            var limpio := s.(esperas := s.esperas.(pelota := false));
            && (s.esperas.pelota && avanza ==>
                  && r.nivelActual == 3 && r.pasoActual == 5
                  && r.feedback.text == Carino
                  && r.esperas == limpio.esperas && r.temporizador == FinishDue)
            && (s.esperas.pelota && !avanza ==> SameProgress(limpio, r) && r.feedback == s.feedback)
    ensures r.esperandoFinAnimacion == s.esperandoFinAnimacion
    ensures s.efectos <= r.efectos
    ensures s.esperas.pelota ==> s.efectos + [HideButton(BotonPelota)] <= r.efectos
  {
    if s.esperas.pelota then
      var s := s.(esperas := s.esperas.(pelota := false), efectos := s.efectos + [HideButton(BotonPelota)]);
      if s.nivelActual == 3 && s.pasoActual == 4 then
        AvanzarPasoNivel3(Recompensa(s, Corazon, Carino))
      else
        s
    else
      s
  }

  // -----------------------------------------------------------------------
  // Timers
  // -----------------------------------------------------------------------

  /** IniciarEntrenamiento after its warm-up wait. */
  function IniciarEntrenamiento(s: Estado): (r: Estado)
    ensures r.nivelActual == 1 && r.pasoActual == 1 && r.temporizador == NoTimer
    ensures r.esperas == s.esperas.(sentado := true)
  {
    IniciarNivel1(s.(temporizador := NoTimer))
  }

  /** First wait of AvanzarDeNivel: announce, raise the level, reset the
      animation and wait again. */
  function AvanzarDeNivel(s: Estado): (r: Estado)
    ensures r.nivelActual == s.nivelActual + 1 && r.pasoActual == s.pasoActual
    ensures r.temporizador == NextLevelDue && r.esperas == s.esperas
    ensures r.efectos == s.efectos + [ResetAnimation]
  {
    s.(instruccion := Avanzando, nivelActual := s.nivelActual + 1, temporizador := NextLevelDue,
       efectos := s.efectos + [ResetAnimation])
  }

  /** Second wait of AvanzarDeNivel: start level 2 or 3, or announce the
      restart once the level has passed 3. */
  function IniciarSiguienteNivel(s: Estado): (r: Estado)
    ensures (s.nivelActual == 2 || s.nivelActual == 3) ==>
              && r.nivelActual == s.nivelActual && r.pasoActual == 1 && r.temporizador == NoTimer
              && r.esperas == s.esperas.(sentado := true)
    ensures s.nivelActual > 3 ==>
              && r.temporizador == RestartDue && r.esperas == s.esperas
              && r.nivelActual == s.nivelActual && r.pasoActual == s.pasoActual
              && r.instruccion == Reiniciando
    ensures s.nivelActual < 2 ==> r == s.(temporizador := NoTimer)
  {
    var s := s.(temporizador := NoTimer);
    if s.nivelActual == 2 then IniciarNivel2(s)
    else if s.nivelActual == 3 then IniciarNivel3(s)
    else if s.nivelActual > 3 then s.(instruccion := Reiniciando, temporizador := RestartDue)
    else s
  }

  /** First wait of FinalizarEntrenamiento: announce the restart. */
  function FinalizarEntrenamiento(s: Estado): (r: Estado)
    ensures r.temporizador == RestartDue && r.esperas == s.esperas
    ensures r.nivelActual == s.nivelActual && r.pasoActual == s.pasoActual
    ensures r.instruccion == Reiniciando
  {
    s.(instruccion := Reiniciando, temporizador := RestartDue)
  }

  /** Last wait before a restart: level 0, then IniciarNivel1. */
  function Reiniciar(s: Estado): (r: Estado)
    ensures r.nivelActual == 1 && r.pasoActual == 1 && r.temporizador == NoTimer
    ensures r.esperas == s.esperas.(sentado := true)
  {
    IniciarNivel1(s.(temporizador := NoTimer, nivelActual := 0))
  }

  /** The pending sequencing timer runs out. */
  function Vencer(s: Estado): Estado {
    match s.temporizador
    case NoTimer => s
    case StartupDue => IniciarEntrenamiento(s)
    case LevelAdvanceDue => AvanzarDeNivel(s)
    case NextLevelDue => IniciarSiguienteNivel(s)
    case FinishDue => FinalizarEntrenamiento(s)
    case RestartDue => Reiniciar(s)
  }

  /** Events that do not involve the pet or ball buttons. */
  function StepCommon(s: Estado, e: Event): Estado {
    match e
    case Voice(t, sentado) => ProcesarComandoVoz(s, t, sentado)
    case CookieClick => ClickGalleta(s)
    case Elapsed(t) => if t == s.temporizador then Vencer(s) else s
    case AnimationSettled => s.(esperandoFinAnimacion := false)
    case FeedbackExpired(g) => s.(feedback := OcultarFeedback(s.feedback, g))
    case _ => s
  }

  /** The controller's reaction to one event. */
  function Step(s: Estado, e: Event): Estado {
    match e
    case PetClick => ClickAcariciar(s)
    case BallClick => ClickPelota(s)
    case _ => StepCommon(s, e)
  }

  /** The reaction with the click handlers as the source writes them. */
  function StepAsWritten(s: Estado, e: Event): Estado {
    match e
    case PetClick => ClickAcariciarAsWritten(s)
    case BallClick => ClickPelotaAsWritten(s)
    case _ => StepCommon(s, e)
  }

  function Run(s: Estado, es: seq<Event>): Estado
    decreases |es|
  {
    if |es| == 0 then s else Run(Step(s, es[0]), es[1..])
  }

  function RunAsWritten(s: Estado, es: seq<Event>): Estado
    decreases |es|
  {
    if |es| == 0 then s else RunAsWritten(StepAsWritten(s, es[0]), es[1..])
  }
}
