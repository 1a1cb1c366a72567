/**
  Vocabulary shared by the two training controllers.

  The engine side of a controller (animator triggers, 3D reward models,
  button visibility) is recorded as an append-only list of `Effect`s rather
  than as engine state. Every coroutine wait becomes a pending `Timer` that an
  explicit `Elapsed` event fires, and the feedback text's hide timer becomes
  a generation counter.
 */
module Training {

  /** The two animations a controller can trigger. */
  datatype Command = Sentado | Pata

  /** The transient reward models (question mark, exclamation mark, heart). */
  datatype Model = Interrogacion | Admiracion | Corazon

  datatype Button = BotonGalleta | BotonAcariciar | BotonPelota

  /** Engine side effects, in the order the controller issues them. */
  datatype Effect =
    | Animate(command: Command)   // SetBool(Reset, false) + SetTrigger(command); the paw
                                  // controller also ResetTrigger(pata) before "sentado"
    | ResetAnimation              // ReiniciarAnimacion: Rebind + Reset = true
    | ShowModel(model: Model)     // MostrarYOcultarModelo
    | ShowButton(button: Button)
    | HideButton(button: Button)

  /** `despues` extends `antes` with effects none of which is an animation. */
  predicate SinAnimacion(antes: seq<Effect>, despues: seq<Effect>) {
    antes <= despues && forall i :: |antes| <= i < |despues| ==> !despues[i].Animate?
  }

  /** The sequencing coroutine that is currently waiting, if any.
      StartupDue: IniciarEntrenamiento's warm-up wait.
      LevelAdvanceDue, NextLevelDue: the two waits of AvanzarDeNivel.
      FinishDue: the first wait of FinalizarEntrenamiento.
      RestartDue: the last wait before the whole training restarts at level 1. */
  datatype Timer = NoTimer | StartupDue | LevelAdvanceDue | NextLevelDue | FinishDue | RestartDue

  /** The messages the feedback text can show; `Vacio` is the cleared text. */
  datatype Aviso = Vacio | Duda | Asombro | Carino | AvisoSentado | AvisoPata | PrimeroSientate

  function AvisoTexto(a: Aviso): string {
    match a
    case Vacio => ""
    case Duda => "¿?"
    case Asombro => "¡!"
    case Carino => "♥"
    case AvisoSentado => "¡Sentado!"
    case AvisoPata => "¡Dame la pata!"
    case PrimeroSientate => "¡Primero siéntate!"
  }

  /** The feedback text and the generation of its pending hide timer. */
  datatype FeedbackSlot = FeedbackSlot(text: Aviso, gen: nat)

  const EmptyFeedback := FeedbackSlot(Vacio, 0)

  /** MostrarFeedback: stop the previous hide timer, show the message and
      start a new hide timer (a fresh generation). */
  function MostrarFeedback(f: FeedbackSlot, mensaje: Aviso): (r: FeedbackSlot)
    ensures r.text == mensaje
    ensures r.gen > f.gen
  {
    FeedbackSlot(mensaje, f.gen + 1)
  }

  /** OcultarFeedbackDespuesDeTiempo firing for generation `gen`: only the
      live timer (the latest generation) clears the text; a stopped one never
      runs. */
  function OcultarFeedback(f: FeedbackSlot, gen: nat): (r: FeedbackSlot)
    ensures gen != f.gen ==> r == f
    ensures gen == f.gen ==> r.text == Vacio && r.gen == f.gen
  {
    if gen == f.gen then f.(text := Vacio) else f
  }

  /** A hide timer started for one message never clears a message shown
      after it. */
  lemma StaleHideKeepsNewerMessage(f: FeedbackSlot, primero: Aviso, segundo: Aviso)
    ensures var f1 := MostrarFeedback(f, primero);
            var f2 := MostrarFeedback(f1, segundo);
            OcultarFeedback(f2, f1.gen).text == segundo
  {
  }

  /** Any hide timer of an older generation leaves the slot untouched. */
  lemma {:induction false} StaleHidesKeepSlot(f: FeedbackSlot, gens: seq<nat>)
    requires forall k :: 0 <= k < |gens| ==> gens[k] < f.gen
    ensures HideAll(f, gens) == f
    decreases |gens|
  {
    if |gens| > 0 {
      StaleHidesKeepSlot(OcultarFeedback(f, gens[0]), gens[1..]);
    }
  }

  function HideAll(f: FeedbackSlot, gens: seq<nat>): FeedbackSlot
    decreases |gens|
  {
    if |gens| == 0 then f else HideAll(OcultarFeedback(f, gens[0]), gens[1..])
  }

  // ---------------------------------------------------------------------
  // Awaiting flags and the script vocabulary
  // ---------------------------------------------------------------------

  /** The awaiting flags of a controller. `sentado` is the sit controller's
      `esperandoComando` and the paw controller's `esperandoComandoSentado`;
      `pata` is the paw controller's `esperandoComando`. */
  datatype Esperas = Esperas(sentado: bool, pata: bool, galleta: bool, acariciar: bool, pelota: bool)

  const Ninguna := Esperas(false, false, false, false, false)

  predicate NadaEsperado(e: Esperas) {
    !e.sentado && !e.pata && !e.galleta && !e.acariciar && !e.pelota
  }

  /** What one step of a level waits for: a voice command, a click, nothing
      (a terminal step that schedules the next phase) or, past the end of a
      level, no step at all. */
  datatype Await = ForSit | ForPaw | ForCookie | ForPet | ForBall | Terminal | Outside

  /** The flags after arming the one that `a` waits for. */
  function Arm(e: Esperas, a: Await): (r: Esperas)
    ensures a in {Terminal, Outside} ==> r == e
    ensures r.sentado == (e.sentado || a == ForSit) && r.pata == (e.pata || a == ForPaw)
    ensures r.galleta == (e.galleta || a == ForCookie)
    ensures r.acariciar == (e.acariciar || a == ForPet) && r.pelota == (e.pelota || a == ForBall)
  {
    match a
    case ForSit => e.(sentado := true)
    case ForPaw => e.(pata := true)
    case ForCookie => e.(galleta := true)
    case ForPet => e.(acariciar := true)
    case ForBall => e.(pelota := true)
    case _ => e
  }

  /** The flags with only the one `a` waits for set, all off for a
      terminal step. */
  function Only(a: Await): (r: Esperas)
    ensures a in {Terminal, Outside} ==> NadaEsperado(r)
  {
    Arm(Ninguna, a)
  }

  /** A terminal step schedules `siguiente`; any other keeps the timer. */
  function Schedule(t: Timer, a: Await, siguiente: Timer): Timer {
    if a == Terminal then siguiente else t
  }
}
