/**
  The menu navigation of `UIManager`.

  The app is one scene whose screens are eight panels; the manager shows
  exactly one of them at a time, switches the AR camera on when the user
  reaches the dog or training screens, and keeps three selection flags
  (dog chosen, "sit" trick chosen, "paw" trick chosen) that decide what the
  Play button does.
 */
module Panels {

  datatype Panel = Menu | Trucos | Perros | Tips | InsSentado | InsPata | EntSentado | Trufoso

  /** The active flag of each panel's GameObject. */
  datatype Paneles = Paneles(
    menu: bool, trucos: bool, perros: bool, tips: bool,
    insSentado: bool, insPata: bool, entSentado: bool, trufoso: bool)

  function Activo(v: Paneles, p: Panel): bool {
    match p
    case Menu => v.menu
    case Trucos => v.trucos
    case Perros => v.perros
    case Tips => v.tips
    case InsSentado => v.insSentado
    case InsPata => v.insPata
    case EntSentado => v.entSentado
    case Trufoso => v.trufoso
  }

  /** Exactly one panel is active. */
  predicate SoloUno(v: Paneles) {
    exists p :: Activo(v, p) && forall q :: Activo(v, q) ==> q == p
  }

  /** The manager's state. The selection flags are C# `int`s that start at
      0 and that the code only ever sets to 1. */
  datatype UiState = UiState(
    paneles: Paneles,
    camara: bool,
    chihuahua: int,
    sentadoSel: int,
    pataSel: int)

  /** ShowOnlyPanel: activate `p` and deactivate every other panel. */
  function ShowOnlyPanel(p: Panel): (r: Paneles)
    ensures forall q :: Activo(r, q) <==> q == p
    ensures SoloUno(r)
  {
    var r := Paneles(p == Menu, p == Trucos, p == Perros, p == Tips,
                     p == InsSentado, p == InsPata, p == EntSentado, p == Trufoso);
    assert Activo(r, p);
    r
  }

  /** The panel an exactly-one visibility shows. */
  function Visible(v: Paneles): (p: Panel)
    requires SoloUno(v)
    ensures Activo(v, p)
    ensures forall q :: Activo(v, q) ==> q == p
  {
    var p :| Activo(v, p) && forall q :: Activo(v, q) ==> q == p;
    p
  }

  /** Start: only the main menu; flags as the scene sets them (0). */
  function Start(camara: bool): (r: UiState)
    ensures SoloUno(r.paneles) && Visible(r.paneles) == Menu
    ensures r.chihuahua == 0 && r.sentadoSel == 0 && r.pataSel == 0
  {
    UiState(ShowOnlyPanel(Menu), camara, 0, 0, 0)
  }

  /** GoToHome, GoToTrucos, GoToPerros, GoToTips: switch panel only. */
  function GoTo(s: UiState, p: Panel): (r: UiState)
    requires p in {Menu, Trucos, Perros, Tips}
    ensures SoloUno(r.paneles) && Visible(r.paneles) == p
    ensures r.camara == s.camara && r.chihuahua == s.chihuahua
    ensures r.sentadoSel == s.sentadoSel && r.pataSel == s.pataSel
  {
    s.(paneles := ShowOnlyPanel(p))
  }

  /** `chihuahua` and `pastor` (either dog button): the dog panel with the
      camera on; no flag changes. */
  function ElegirPerro(s: UiState): (r: UiState)
    ensures SoloUno(r.paneles) && Visible(r.paneles) == Trufoso && r.camara
    ensures r.chihuahua == s.chihuahua && r.sentadoSel == s.sentadoSel && r.pataSel == s.pataSel
  {
    s.(paneles := ShowOnlyPanel(Trufoso), camara := true)
  }

  /** OK: the dog is confirmed; go to the trick list, camera on. */
  function OK(s: UiState): (r: UiState)
    ensures SoloUno(r.paneles) && Visible(r.paneles) == Trucos && r.camara
    ensures r.chihuahua == 1 && r.sentadoSel == s.sentadoSel && r.pataSel == s.pataSel
  {
    s.(chihuahua := 1, paneles := ShowOnlyPanel(Trucos), camara := true)
  }

  /** SentadoTru: the "sit" instructions; the sit trick is selected. */
  function SentadoTru(s: UiState): (r: UiState)
    ensures SoloUno(r.paneles) && Visible(r.paneles) == InsSentado
    ensures r.sentadoSel == 1 && r.chihuahua == s.chihuahua && r.pataSel == s.pataSel
    ensures r.camara == s.camara
  {
    s.(paneles := ShowOnlyPanel(InsSentado), sentadoSel := 1)
  }

  /** PataTru: the "paw" instructions; the paw trick is selected. */
  function PataTru(s: UiState): (r: UiState)
    ensures SoloUno(r.paneles) && Visible(r.paneles) == InsPata
    ensures r.pataSel == 1 && r.chihuahua == s.chihuahua && r.sentadoSel == s.sentadoSel
    ensures r.camara == s.camara
  {
    s.(paneles := ShowOnlyPanel(InsPata), pataSel := 1)
  }

  /** Play: with the dog and the sit trick chosen, open the sit training
      (camera on); with the dog and the paw trick chosen, only switch the
      camera on (the paw training panel does not exist); otherwise send the
      user to the dog list when no dog is chosen, or to the trick list when
      a trick flag is 0. The flags never change. */
  function Play(s: UiState): (r: UiState)
    ensures r.chihuahua == s.chihuahua && r.sentadoSel == s.sentadoSel && r.pataSel == s.pataSel
    ensures s.chihuahua == 1 && s.sentadoSel == 1 ==> r == s.(paneles := ShowOnlyPanel(EntSentado), camara := true)
    ensures s.chihuahua == 1 && s.sentadoSel != 1 && s.pataSel == 1 ==> r == s.(camara := true)
    ensures s.chihuahua == 0 ==> r == s.(paneles := ShowOnlyPanel(Perros))
    ensures s.chihuahua != 0 && !(s.chihuahua == 1 && (s.sentadoSel == 1 || s.pataSel == 1)) ==>
              r == (if s.sentadoSel == 0 || s.pataSel == 0 then s.(paneles := ShowOnlyPanel(Trucos)) else s)
  {
    if s.chihuahua == 1 && s.sentadoSel == 1 then
      s.(paneles := ShowOnlyPanel(EntSentado), camara := true)
    else if s.chihuahua == 1 && s.pataSel == 1 then
      s.(camara := true)
    else if s.chihuahua == 0 then
      s.(paneles := ShowOnlyPanel(Perros))
    else if s.sentadoSel == 0 || s.pataSel == 0 then
      s.(paneles := ShowOnlyPanel(Trucos))
    else
      s
  }

  /** The buttons of the menu panels. */
  datatype Handler =
    | GoToHome | GoToTrucos | GoToPerros | GoToTips
    | Chihuahua | Pastor | PressOK | PressSentadoTru | PressPataTru | PressPlay

  function Apply(s: UiState, h: Handler): UiState {
    match h
    case GoToHome => GoTo(s, Menu)
    case GoToTrucos => GoTo(s, Trucos)
    case GoToPerros => GoTo(s, Perros)
    case GoToTips => GoTo(s, Tips)
    case Chihuahua => ElegirPerro(s)
    case Pastor => ElegirPerro(s)
    case PressOK => OK(s)
    case PressSentadoTru => SentadoTru(s)
    case PressPataTru => PataTru(s)
    case PressPlay => Play(s)
  }

  function Run(s: UiState, hs: seq<Handler>): UiState
    decreases |hs|
  {
    if |hs| == 0 then s else Run(Apply(s, hs[0]), hs[1..])
  }

  // ---------------------------------------------------------------------
  // Properties
  // ---------------------------------------------------------------------

  /** Every selection flag is 0 or 1. */
  predicate Binario(s: UiState) {
    s.chihuahua in {0, 1} && s.sentadoSel in {0, 1} && s.pataSel in {0, 1}
  }

  /** What holds from Start on: one panel active, binary flags. */
  predicate UiInv(s: UiState) {
    SoloUno(s.paneles) && Binario(s)
  }

  /** Later states keep every selection and never switch the camera off. */
  predicate Grows(s: UiState, r: UiState) {
    && s.chihuahua <= r.chihuahua && s.sentadoSel <= r.sentadoSel && s.pataSel <= r.pataSel
    && (s.camara ==> r.camara)
  }

  lemma ApplyPreservesInv(s: UiState, h: Handler)
    requires UiInv(s)
    ensures UiInv(Apply(s, h)) && Grows(s, Apply(s, h))
  {
  }

  lemma {:induction false} RunPreservesInv(s: UiState, hs: seq<Handler>)
    requires UiInv(s)
    ensures UiInv(Run(s, hs)) && Grows(s, Run(s, hs))
    decreases |hs|
  {
    if |hs| > 0 {
      ApplyPreservesInv(s, hs[0]);
      RunPreservesInv(Apply(s, hs[0]), hs[1..]);
    }
  }

  /** Whatever buttons are pressed after Start, exactly one panel is shown,
      the flags stay 0 or 1 and a selection, once made, is never undone. */
  lemma ReachableInv(camara: bool, hs: seq<Handler>)
    ensures UiInv(Run(Start(camara), hs)) && Grows(Start(camara), Run(Start(camara), hs))
  {
    RunPreservesInv(Start(camara), hs);
  }

  /** With 0/1 flags Play always answers: it opens the sit training, turns
      the camera on for the paw trick, or sends the user to the dog list or
      the trick list. */
  lemma PlayAlwaysAnswers(s: UiState)
    requires Binario(s)
    ensures var r := Play(s);
            || (s.chihuahua == 1 && s.sentadoSel == 1 && Visible(r.paneles) == EntSentado && r.camara)
            || (s.chihuahua == 1 && s.sentadoSel == 0 && s.pataSel == 1 && r.paneles == s.paneles && r.camara)
            || (s.chihuahua == 0 && Visible(r.paneles) == Perros)
            || (s.chihuahua == 1 && s.sentadoSel == 0 && s.pataSel == 0 && Visible(r.paneles) == Trucos)
  {
  }

  /** Pressing Play twice is pressing it once. */
  lemma PlayIdempotent(s: UiState)
    ensures Play(Play(s)) == Play(s)
  {
  }

  /** The path to the sit training: pick a dog, confirm, choose "sit",
      press Play. */
  lemma SitTrainingPath(camara: bool)
    ensures var r := Run(Start(camara), [Chihuahua, PressOK, PressSentadoTru, PressPlay]);
            Visible(r.paneles) == EntSentado && r.camara
  {
    var s1 := ElegirPerro(Start(camara));
    var s2 := OK(s1);
    var s3 := SentadoTru(s2);
    assert Run(Start(camara), [Chihuahua, PressOK, PressSentadoTru, PressPlay]) == Play(s3);
  }
}
