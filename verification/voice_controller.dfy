/**
  The microphone controller (`VoiceController`).

  It keeps two views of the same facts: the booleans `isMicrophoneOn` and
  `hasMicPermission`, and the integers `micStatus` and `permissionStatus`
  (0 or 1) that other scripts read. It asks Android for the microphone
  permission, picks the first microphone the device reports, starts and stops
  recording, and keeps the two buttons and two indicators in step with the
  booleans.

  Everything the platform answers is an explicit input: whether the user has
  authorised the microphone, the device list, and whether `Microphone.Start`
  throws. The permission request's half-second wait is a pending check that
  a later `PermisoRespondido` event completes. All serialised scene
  references are taken to be assigned.
 */
module Microphone {

  /** `selectedMicrophone`: no device chosen yet (null) or a device name. */
  datatype Seleccion = SinMicrofono | Microfono(nombre: string)

  /** What the platform answers during one call. */
  datatype Plataforma = Plataforma(autorizado: bool, dispositivos: seq<string>, inicioFalla: bool)

  datatype MicState = MicState(
    micStatus: int,
    permissionStatus: int,
    isMicrophoneOn: bool,
    hasMicPermission: bool,
    seleccionado: Seleccion,
    grabando: set<string>,          // devices for which Microphone.IsRecording holds
    permisosVisible: bool,          // the PermisosUsuario panel
    activarInteractuable: bool,     // btnActivarMic.interactable
    desactivarInteractuable: bool,  // btnDesactivarMic.interactable
    indicadorActivo: bool,
    indicadorInactivo: bool,
    comprobacionesPendientes: nat)  // running CheckPermissionAfterRequest coroutines

  function Bit(b: bool): int {
    if b then 1 else 0
  }

  /** The integer statuses agree with the booleans. */
  predicate StatusMirror(s: MicState) {
    s.micStatus == Bit(s.isMicrophoneOn) && s.permissionStatus == Bit(s.hasMicPermission)
  }

  /** The two indicators show whether the microphone is on. */
  predicate IndicatorsMirror(s: MicState) {
    s.indicadorActivo == s.isMicrophoneOn && s.indicadorInactivo == !s.isMicrophoneOn
  }

  /** Activate is offered exactly when permitted and off, deactivate exactly
      when permitted and on. */
  predicate ButtonsMirror(s: MicState) {
    s.activarInteractuable == (s.hasMicPermission && !s.isMicrophoneOn)
    && s.desactivarInteractuable == (s.hasMicPermission && s.isMicrophoneOn)
  }

  /** The field initialisers; the scene's own initial values of the panel,
      buttons and indicators are overwritten by `Start` before anything
      reads them. */
  const Campos := MicState(0, 0, false, false, SinMicrofono, {}, false, false, false, false, false, 0)

  /** `ShowOnlyPanel`: the permission panel is shown iff it is the one asked for. */
  function ShowOnlyPanel(s: MicState, esPermisos: bool): (r: MicState)
    ensures r.permisosVisible == esPermisos
    ensures r.(permisosVisible := s.permisosVisible) == s
  {
    s.(permisosVisible := esPermisos)
  }

  /** `UpdateButtonUI`: rewrite the statuses, buttons and indicators from the
      two booleans; nothing else changes. */
  function UpdateButtonUI(s: MicState): (r: MicState)
    ensures StatusMirror(r) && IndicatorsMirror(r) && ButtonsMirror(r)
    ensures r.isMicrophoneOn == s.isMicrophoneOn && r.hasMicPermission == s.hasMicPermission
    ensures r.seleccionado == s.seleccionado && r.grabando == s.grabando
    ensures r.permisosVisible == s.permisosVisible
    ensures r.comprobacionesPendientes == s.comprobacionesPendientes
  {
    s.(permissionStatus := Bit(s.hasMicPermission), micStatus := Bit(s.isMicrophoneOn),
       activarInteractuable := s.hasMicPermission && !s.isMicrophoneOn,
       desactivarInteractuable := s.hasMicPermission && s.isMicrophoneOn,
       indicadorActivo := s.isMicrophoneOn, indicadorInactivo := !s.isMicrophoneOn)
  }

  /** `InitializeMicrophone`: choose the first reported device; with no
      device the previous choice stays. */
  function InitializeMicrophone(s: MicState, dispositivos: seq<string>): (r: MicState)
    ensures |dispositivos| > 0 ==> r.seleccionado == Microfono(dispositivos[0])
    ensures |dispositivos| == 0 ==> r == s
    ensures r.(seleccionado := s.seleccionado) == s
  {
    if |dispositivos| > 0 then s.(seleccionado := Microfono(dispositivos[0])) else s
  }

  /** The permission is granted: record it, hide the panel and choose a device. */
  function Conceder(s: MicState, dispositivos: seq<string>): (r: MicState)
    ensures r.hasMicPermission && r.permissionStatus == 1 && !r.permisosVisible
    ensures r.isMicrophoneOn == s.isMicrophoneOn && r.micStatus == s.micStatus
  {
    InitializeMicrophone(s.(hasMicPermission := true, permissionStatus := 1, permisosVisible := false), dispositivos)
  }

  /** `RequestMicrophonePermission`: show the panel; when the platform has
      not authorised the microphone, ask the user and start a pending check;
      otherwise take the permission at once. The second branch does not call
      `UpdateButtonUI`. */
  function RequestMicrophonePermission(s: MicState, p: Plataforma): (r: MicState)
    ensures !p.autorizado ==> r == s.(permisosVisible := true, comprobacionesPendientes := s.comprobacionesPendientes + 1)
    ensures p.autorizado ==> r.hasMicPermission && r.permissionStatus == 1 && !r.permisosVisible
    ensures p.autorizado ==> r.comprobacionesPendientes == s.comprobacionesPendientes
    ensures r.isMicrophoneOn == s.isMicrophoneOn && r.micStatus == s.micStatus && r.grabando == s.grabando
    ensures r.activarInteractuable == s.activarInteractuable && r.desactivarInteractuable == s.desactivarInteractuable
    ensures r.indicadorActivo == s.indicadorActivo && r.indicadorInactivo == s.indicadorInactivo
  {
    var mostrado := s.(permisosVisible := true);
    if !p.autorizado then
      mostrado.(comprobacionesPendientes := s.comprobacionesPendientes + 1)
    else
      Conceder(mostrado, p.dispositivos)
  }

  /** `CheckPermissionAfterRequest` once its wait is over: take or drop the
      permission according to the platform's answer, then refresh the UI.
      A denial does not hide the panel. */
  function CheckPermissionAfterRequest(s: MicState, p: Plataforma): (r: MicState)
    requires s.comprobacionesPendientes > 0
    ensures r.comprobacionesPendientes == s.comprobacionesPendientes - 1
    ensures r.hasMicPermission == p.autorizado && r.permissionStatus == Bit(p.autorizado)
    ensures p.autorizado ==> !r.permisosVisible
    ensures !p.autorizado ==> r.permisosVisible == s.permisosVisible && r.seleccionado == s.seleccionado
    ensures r.isMicrophoneOn == s.isMicrophoneOn && r.grabando == s.grabando
    ensures StatusMirror(r) && IndicatorsMirror(r) && ButtonsMirror(r)
  {
    var t := s.(comprobacionesPendientes := s.comprobacionesPendientes - 1);
    var u := if p.autorizado then Conceder(t, p.dispositivos)
             else t.(hasMicPermission := false, permissionStatus := 0);
    UpdateButtonUI(u)
  }

  /** `StartMicrophone`: with a device chosen and no exception, record on it
      and light the active indicator; with no device, or when
      `Microphone.Start` throws, the microphone is marked off. */
  function StartMicrophone(s: MicState, inicioFalla: bool): (r: MicState)
    ensures s.seleccionado.Microfono? && !inicioFalla ==>
              r.micStatus == 1 && r.isMicrophoneOn == s.isMicrophoneOn
              && r.grabando == s.grabando + {s.seleccionado.nombre}
              && r.indicadorActivo && !r.indicadorInactivo
    ensures !(s.seleccionado.Microfono? && !inicioFalla) ==>
              r == s.(isMicrophoneOn := false, micStatus := 0)
    ensures r.hasMicPermission == s.hasMicPermission && r.seleccionado == s.seleccionado
  {
    match s.seleccionado
    case Microfono(nombre) =>
      if inicioFalla then s.(isMicrophoneOn := false, micStatus := 0)
      else s.(grabando := s.grabando + {nombre}, micStatus := 1,
              indicadorActivo := true, indicadorInactivo := false)
    case SinMicrofono => s.(isMicrophoneOn := false, micStatus := 0)
  }

  /** `StopMicrophone`: end the recording on the chosen device if it is
      recording; otherwise nothing happens. */
  function StopMicrophone(s: MicState): (r: MicState)
    ensures s.seleccionado.Microfono? && s.seleccionado.nombre in s.grabando ==>
              r.micStatus == 0 && r.grabando == s.grabando - {s.seleccionado.nombre}
              && !r.indicadorActivo && r.indicadorInactivo
    ensures !(s.seleccionado.Microfono? && s.seleccionado.nombre in s.grabando) ==> r == s
    ensures r.isMicrophoneOn == s.isMicrophoneOn && r.hasMicPermission == s.hasMicPermission
    ensures r.seleccionado == s.seleccionado
  {
    match s.seleccionado
    case Microfono(nombre) =>
      if nombre in s.grabando then
        s.(grabando := s.grabando - {nombre}, micStatus := 0,
           indicadorActivo := false, indicadorInactivo := true)
      else s
    case SinMicrofono => s
  }

  /** `ActivarMicrofono`: without permission ask for it; when off, switch on,
      start recording and refresh the UI; when already on, nothing. */
  function ActivarMicrofono(s: MicState, p: Plataforma): (r: MicState)
    ensures !s.hasMicPermission ==> r == RequestMicrophonePermission(s, p)
    ensures s.hasMicPermission && s.isMicrophoneOn ==> r == s
    ensures s.hasMicPermission && !s.isMicrophoneOn ==>
              r.hasMicPermission && StatusMirror(r) && IndicatorsMirror(r) && ButtonsMirror(r)
              && (r.isMicrophoneOn <==> s.seleccionado.Microfono? && !p.inicioFalla)
  {
    if !s.hasMicPermission then RequestMicrophonePermission(s, p)
    else if !s.isMicrophoneOn then UpdateButtonUI(StartMicrophone(s.(isMicrophoneOn := true), p.inicioFalla))
    else s
  }

  /** `DesactivarMicrofono`: when on, switch off, stop recording and refresh
      the UI; otherwise nothing. Permission is not consulted. */
  function DesactivarMicrofono(s: MicState): (r: MicState)
    ensures s.isMicrophoneOn ==>
              !r.isMicrophoneOn && r.micStatus == 0 && StatusMirror(r) && IndicatorsMirror(r) && ButtonsMirror(r)
              && r.hasMicPermission == s.hasMicPermission
    ensures !s.isMicrophoneOn ==> r == s
  {
    if s.isMicrophoneOn then UpdateButtonUI(StopMicrophone(s.(isMicrophoneOn := false))) else s
  }

  /** `ToggleMicrophone`: without permission ask for it; otherwise flip the
      microphone, start or stop recording, and refresh the UI. */
  function ToggleMicrophone(s: MicState, p: Plataforma): (r: MicState)
    ensures !s.hasMicPermission ==> r == RequestMicrophonePermission(s, p)
    ensures s.hasMicPermission ==> StatusMirror(r) && IndicatorsMirror(r) && ButtonsMirror(r) && r.hasMicPermission
    ensures s.hasMicPermission && s.isMicrophoneOn ==> !r.isMicrophoneOn
  {
    if !s.hasMicPermission then RequestMicrophonePermission(s, p)
    else
      var t := s.(isMicrophoneOn := !s.isMicrophoneOn);
      UpdateButtonUI(if t.isMicrophoneOn then StartMicrophone(t, p.inicioFalla) else StopMicrophone(t))
  }

  /** Unity's `Start`: request the permission, then refresh the UI. */
  function Start(p: Plataforma): (r: MicState)
    ensures StatusMirror(r) && IndicatorsMirror(r) && ButtonsMirror(r)
    ensures !r.isMicrophoneOn && r.micStatus == 0
    ensures r.hasMicPermission == p.autorizado
    ensures r.permisosVisible == !p.autorizado
    ensures r.comprobacionesPendientes == (if p.autorizado then 0 else 1)
  {
    UpdateButtonUI(RequestMicrophonePermission(Campos, p))
  }

  /** `OnDestroy`: end a recording still running on the chosen device. */
  function OnDestroy(s: MicState): (r: MicState)
    ensures s.seleccionado.Microfono? ==> s.seleccionado.nombre !in r.grabando
    ensures r.grabando <= s.grabando
    ensures r.(grabando := s.grabando) == s
  {
    match s.seleccionado
    case Microfono(nombre) => s.(grabando := s.grabando - {nombre})
    case SinMicrofono => s
  }

  function GetMicStatus(s: MicState): int {
    s.micStatus
  }

  function GetPermissionStatus(s: MicState): int {
    s.permissionStatus
  }

  function IsMicrophoneActive(s: MicState): bool {
    s.isMicrophoneOn && s.hasMicPermission
  }

  // ---------------------------------------------------------------------
  // Events and reachable states
  // ---------------------------------------------------------------------

  /** What can happen after `Start`: a button press, a call to the public
      toggle, a pending permission check completing, another script choosing
      the shown panel, or the object being destroyed. */
  datatype Event =
    | PulsarActivar(p: Plataforma)
    | PulsarDesactivar
    | Alternar(p: Plataforma)
    | PermisoRespondido(p: Plataforma)
    | MostrarPanel(esPermisos: bool)
    | Destruir

  function Step(s: MicState, e: Event): MicState {
    match e
    case PulsarActivar(p) => ActivarMicrofono(s, p)
    case PulsarDesactivar => DesactivarMicrofono(s)
    case Alternar(p) => ToggleMicrophone(s, p)
    case PermisoRespondido(p) =>
      if s.comprobacionesPendientes > 0 then CheckPermissionAfterRequest(s, p) else s
    case MostrarPanel(b) => ShowOnlyPanel(s, b)
    case Destruir => OnDestroy(s)
  }

  function Run(s: MicState, es: seq<Event>): MicState
    decreases |es|
  {
    if |es| == 0 then s else Run(Step(s, es[0]), es[1..])
  }

  /** The invariant of every state after `Start`: the integer statuses and
      the indicators follow the booleans. (The buttons need not: see
      `DirectGrantLeavesButtonsStale`.) */
  predicate Inv(s: MicState) {
    StatusMirror(s) && IndicatorsMirror(s)
  }

  lemma StartInv(p: Plataforma)
    ensures Inv(Start(p))
  {
  }

  lemma StepPreservesInv(s: MicState, e: Event)
    requires Inv(s)
    ensures Inv(Step(s, e))
  {
  }

  lemma {:induction false} RunPreservesInv(s: MicState, es: seq<Event>)
    requires Inv(s)
    ensures Inv(Run(s, es))
    decreases |es|
  {
    if |es| > 0 {
      StepPreservesInv(s, es[0]);
      RunPreservesInv(Step(s, es[0]), es[1..]);
    }
  }

  /** Every state reached from `Start` keeps the statuses and indicators in
      step with the booleans. */
  lemma Reachable(p: Plataforma, es: seq<Event>)
    ensures Inv(Run(Start(p), es))
  {
    StartInv(p);
    RunPreservesInv(Start(p), es);
  }

  /** In a reachable state the public getters agree: the microphone is
      active exactly when both statuses read 1. */
  lemma ActiveIffStatuses(s: MicState)
    requires Inv(s)
    ensures IsMicrophoneActive(s) <==> GetMicStatus(s) == 1 && GetPermissionStatus(s) == 1
    ensures GetMicStatus(s) in {0, 1} && GetPermissionStatus(s) in {0, 1}
  {
  }

  /** Toggling is pressing whichever of the two buttons applies. */
  lemma ToggleIsActivateOrDeactivate(s: MicState, p: Plataforma)
    ensures ToggleMicrophone(s, p) ==
            if s.hasMicPermission && s.isMicrophoneOn then DesactivarMicrofono(s) else ActivarMicrofono(s, p)
  {
  }

  /** Pressing activate twice is pressing it once, when permitted. */
  lemma ActivarIdempotent(s: MicState, p: Plataforma)
    requires s.hasMicPermission
    requires s.seleccionado.Microfono? && !p.inicioFalla
    ensures ActivarMicrofono(ActivarMicrofono(s, p), p) == ActivarMicrofono(s, p)
  {
  }

  /** Switching the microphone on and off again restores the state when
      nothing was recording. */
  lemma ActivarThenDesactivar(s: MicState, p: Plataforma)
    requires Inv(s) && ButtonsMirror(s)
    requires s.hasMicPermission && !s.isMicrophoneOn
    requires s.seleccionado.Microfono? && s.seleccionado.nombre !in s.grabando && !p.inicioFalla
    ensures ActivarMicrofono(s, p).isMicrophoneOn
    ensures DesactivarMicrofono(ActivarMicrofono(s, p)) == s
  {
  }

  /** With no device chosen, or when `Microphone.Start` throws, activation
      leaves the microphone off and activate still offered. */
  lemma FailedStartKeepsMicOff(s: MicState, p: Plataforma)
    requires s.hasMicPermission && !s.isMicrophoneOn
    requires s.seleccionado == SinMicrofono || p.inicioFalla
    ensures var r := ActivarMicrofono(s, p);
            !r.isMicrophoneOn && r.micStatus == 0 && r.activarInteractuable && !r.desactivarInteractuable
            && r.grabando == s.grabando
  {
  }

  /** A denied permission check disables both buttons, whatever the
      microphone is doing. */
  lemma DeniedCheckDisablesButtons(s: MicState, p: Plataforma)
    requires s.comprobacionesPendientes > 0 && !p.autorizado
    ensures var r := CheckPermissionAfterRequest(s, p);
            !IsMicrophoneActive(r) && GetPermissionStatus(r) == 0
            && !r.activarInteractuable && !r.desactivarInteractuable
  {
  }

  /** Without permission the microphone cannot be switched on by either
      entry point; the request does not touch the microphone. */
  lemma NoPermissionNoMicrophone(s: MicState, p: Plataforma)
    requires !s.hasMicPermission && !s.isMicrophoneOn
    ensures !ActivarMicrofono(s, p).isMicrophoneOn && !ToggleMicrophone(s, p).isMicrophoneOn
    ensures ActivarMicrofono(s, p).grabando == s.grabando
  {
  }

  /** When the platform already authorises the microphone, a request made
      from a state without permission grants it but leaves the buttons as
      they were: activate stays disabled although the microphone is
      permitted and off. The next `UpdateButtonUI` (any later toggle,
      activation or check) repairs them. */
  lemma DirectGrantLeavesButtonsStale(s: MicState, p: Plataforma)
    requires ButtonsMirror(s) && !s.hasMicPermission && !s.isMicrophoneOn && p.autorizado
    ensures var r := ToggleMicrophone(s, p);
            r.hasMicPermission && !r.isMicrophoneOn && !r.activarInteractuable && !ButtonsMirror(r)
  {
  }
}
