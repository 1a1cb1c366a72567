# ProyectoRA training controllers in Dafny

ProyectoRA is an augmented-reality app for training a dog. A virtual dog
stands in the camera view. The user speaks commands ("sentado", "dame la
pata") and rewards the dog with three buttons: cookie, pet and ball. This
project models four parts of the app:

- the sit-training controller (`EntrenamientoSentadoController`), as
  `SitTraining` with its properties in `SitProperties`;
- the paw-training controller (`EntPataController`), as `PawTraining` with
  its properties in `PawProperties`;
- the microphone controller (`VoiceController`), as `Microphone`;
- the menu navigation (`UIManager`), as `Panels`.

Two shared modules support them:

- `Text` normalises a recognised phrase, which the source lower-cases and
  trims. It also defines the keyword match `ContienePalabra`, which is
  ordinal substring search.
- `Training` holds what both training controllers use: the effect log, the
  timers, the feedback slot and the awaiting flags.

Each training controller runs three levels. Every level is a short script of
steps. Each step shows an instruction and arms one awaiting flag: a voice
command, the cookie, the pet button or the ball. The matching input clears
the flag, gives feedback (an animation, a 3D model, a message) and moves to
the next step. A level's last step starts a wait that leads to the next
level. The last step of level 3 starts a wait that restarts the training at
level 1. In level 1 the first command is "not understood": the dog shows a
question mark. After the cookie, the same command is obeyed.

## How the model is built

- **State.** Each controller's state is an immutable record. Every callback
  of the source (voice result, button click, end of a coroutine wait) is a
  pure transition function. `Step` dispatches an `Event` to them, and `Run`
  folds a list of events.
- **Waits.**
  - A coroutine wait of the sequencing logic is a pending `Timer`, which an
    `Elapsed` event fires.
  - The feedback message's hide timer is a generation number. A stale hide
    timer does nothing, because the source stops it.
  - The animation cooldown is a flag that an `AnimationSettled` event clears.
- **Engine effects.** Animator triggers, 3D reward models and button
  visibility are appended to an `efectos` log.
- **Reference definition.** Each controller's step order is written twice:
  - by hand, in the step and click functions, as the source writes them;
  - as an independent table, `Script(nivel, paso)`.

  `Inv` is the reachable-state invariant. It says that the armed flags are
  exactly what `Script` asks for at the current step, and that a pending
  timer belongs to a terminal step. `Progress` shows that an input moves the
  training one step along the script exactly when the script expects it,
  and moves nothing otherwise. `NeverStuck` shows that every reachable state
  has an input or timer that moves it. For the paw controller these three
  are proved about the corrected machine (`Step` and `Run`), which fixes the
  level-3 click handlers. The as-written handlers (`StepAsWritten`) get
  stuck in level 3, and `AsWrittenStuckFromStart` shows that state is
  reached from `Start` when levels 1 and 2 are played as asked; see
  Findings.
- **Platform answers as inputs.** Whatever the platform decides becomes an
  explicit input:
  - for voice events, whether the animator reports the dog as seated;
  - for the microphone, whether the user authorised the permission, the
    device list, and whether `Microphone.Start` throws.

## Model

| member | source | states |
|---|---|---|
| Text.LowerChar | Assets/Scripts/EntSentadoController.cs:879 | an upper-case ASCII letter becomes the lower-case letter at the same alphabet position; any other character is unchanged; the result is never upper case |
| Text.Lower | Assets/Scripts/EntSentadoController.cs:879 | `ToLower` keeps the length, maps every upper-case ASCII letter to its lower-case partner at the same index, keeps every other character and leaves no upper-case letter |
| Text.TrimStart | Assets/Scripts/EntSentadoController.cs:879 | the result is a suffix of the input, everything dropped is white space, and it does not start with white space |
| Text.TrimEnd | Assets/Scripts/EntSentadoController.cs:879 | the result is a prefix of the input, everything dropped is white space, and it does not end with white space |
| Text.Trim | Assets/Scripts/EntSentadoController.cs:879 | a trimmed phrase is a contiguous piece of the input with only white space removed around it, and has no white space at either end |
| Text.Normalize | Assets/Scripts/EntSentadoController.cs:879 | the phrase the controllers match against is the lower-cased input with only surrounding white space removed; it has no upper-case letter and no white space at either end |
| Text.NormalizeFixes | Assets/Scripts/EntPataController.cs:297 | a phrase already lower case and trimmed is left unchanged by normalisation |
| Text.NormalizeIdempotent | Assets/Scripts/EntPataController.cs:297 | normalising twice gives the same phrase as normalising once |
| Text.BlankNormalizesToEmpty | Assets/Scripts/EntSentadoController.cs:879 | a phrase of white space only becomes the empty phrase |
| Text.Contains | Assets/Scripts/EntSentadoController.cs:941 | the scan answers true exactly when the keyword occurs at some position of the phrase |
| Text.ContienePalabra | Assets/Scripts/EntSentadoController.cs:937-947 | true exactly when some keyword of the list occurs in the phrase; false for an empty list |
| Text.KeywordMatchesItself | Assets/Scripts/EntPataController.cs:388-398 | every keyword of a list matches that list |
| Text.EmptyMatchesNoKeyword | Assets/Scripts/EntPataController.cs:388-398 | an empty phrase matches no list of non-empty keywords |
| Text.SubstringTransitive | Assets/Scripts/EntPataController.cs:392 | a word inside a keyword that occurs in the phrase also occurs in the phrase |
| Training.MostrarFeedback | Assets/Scripts/EntSentadoController.cs:986-999 | the message is shown and a newer hide timer replaces the previous one |
| Training.OcultarFeedback | Assets/Scripts/EntSentadoController.cs:1001-1009 | only the live hide timer clears the message; a stopped one changes nothing |
| Training.StaleHideKeepsNewerMessage | Assets/Scripts/EntPataController.cs:456-479 | the hide timer of a replaced message never clears the message that replaced it |
| Training.StaleHidesKeepSlot | Assets/Scripts/EntPataController.cs:456-479 | any number of stopped hide timers leave the feedback untouched |
| SitTraining.AvanzarPasoNivel1 | Assets/Scripts/EntSentadoController.cs:730-773 | one step forward; arms what the level-1 script table names for the new step, or schedules the level change at its end; the command is not understood at step 1 and is understood at step 3 |
| SitTraining.AvanzarPasoNivel2 | Assets/Scripts/EntSentadoController.cs:792-826 | one step forward; arms what the level-2 script table names, or schedules the level change at its end |
| SitTraining.AvanzarPasoNivel3 | Assets/Scripts/EntSentadoController.cs:1140-1174 | one step forward; arms what the level-3 script table names, or schedules the end of the training |
| SitTraining.IniciarNivel1 | Assets/Scripts/EntSentadoController.cs:713-728 | level 1 starts at its first step, awaiting the voice command, not yet understood, after an animation reset |
| SitTraining.IniciarNivel2 | Assets/Scripts/EntSentadoController.cs:775-790 | level 2 starts at its first step, awaiting the cookie, after an animation reset |
| SitTraining.IniciarNivel3 | Assets/Scripts/EntSentadoController.cs:1123-1138 | level 3 starts at its first step, awaiting the voice command, after an animation reset |
| SitTraining.EjecutarComando | Assets/Scripts/EntSentadoController.cs:949-976 | only "sentado" animates and only outside the cooldown, which it starts; the training position never moves |
| SitTraining.Recompensa | Assets/Scripts/EntSentadoController.cs:866-874 | a reward shows its model and its message and leaves the training position alone |
| SitTraining.ComandoEsperado | Assets/Scripts/EntSentadoController.cs:887-919 | the awaited command clears the flag and moves one step forward; at level 1 before it is understood it shows a question mark and animates nothing; otherwise the dog obeys: with the cooldown off it plays the sit animation and shows "¡Sentado!", with it on nothing animates and the message stays, and either way the cooldown is on afterwards |
| SitTraining.ProcesarComandoVoz | Assets/Scripts/EntSentadoController.cs:876-935 | while awaiting, a sit keyword is the awaited command and anything else is ignored; otherwise a sit keyword only animates, unless the cooldown is on |
| SitTraining.ClickGalleta | Assets/Scripts/EntSentadoController.cs:1051-1081 | without the flag nothing happens; with it the button hides and the step advances at level 1 steps 2 and 4 and at level 2 |
| SitTraining.ClickAcariciar | Assets/Scripts/EntSentadoController.cs:1084-1104 | without the flag nothing happens; with it the step advances, with a heart, at level 2 step 3 and level 3 step 2 |
| SitTraining.ClickPelota | Assets/Scripts/EntSentadoController.cs:1107-1121 | without the flag nothing happens; with it the step advances, with a heart, at level 3 step 3 only |
| SitTraining.IniciarEntrenamiento | Assets/Scripts/EntSentadoController.cs:704-711 | after the warm-up wait the training is at level 1 step 1, awaiting the voice command, with no wait pending |
| SitTraining.AvanzarDeNivel | Assets/Scripts/EntSentadoController.cs:828-845 | the first wait raises the level, resets the animation and starts the second wait |
| SitTraining.IniciarSiguienteNivel | Assets/Scripts/EntSentadoController.cs:847-863 | the second wait starts level 2 or 3, or restarts past level 3 |
| SitTraining.FinalizarEntrenamiento | Assets/Scripts/EntSentadoController.cs:1176-1181 | the end of training announces the restart and starts the last wait |
| SitTraining.Reiniciar | Assets/Scripts/EntSentadoController.cs:1182-1186 | the restart puts the training back at level 1 step 1, awaiting the voice command, not understood |
| SitProperties.InicialInv | Assets/Scripts/EntSentadoController.cs:651-702 | the state after `Start` is reachable-valid |
| SitProperties.Progress | Assets/Scripts/EntSentadoController.cs:876-1121 | in every reachable state an input advances the script by exactly one step when it is what the script awaits, and moves nothing otherwise |
| SitProperties.VoiceProgress | Assets/Scripts/EntSentadoController.cs:876-935 | the progress property for a voice phrase |
| SitProperties.CookieProgress | Assets/Scripts/EntSentadoController.cs:1051-1081 | the progress property for the cookie button |
| SitProperties.PetProgress | Assets/Scripts/EntSentadoController.cs:1084-1104 | the progress property for the pet button |
| SitProperties.BallProgress | Assets/Scripts/EntSentadoController.cs:1107-1121 | the progress property for the ball button |
| SitProperties.StepPreservesInv | Assets/Scripts/EntSentadoController.cs:704-1186 | every event keeps the flags in agreement with the script and keeps the single pending wait on terminal steps |
| SitProperties.RunPreservesInv | Assets/Scripts/EntSentadoController.cs:704-1186 | any sequence of events keeps the invariant |
| SitProperties.ReachableInv | Assets/Scripts/EntSentadoController.cs:651-1186 | every state reached from `Start` satisfies the invariant |
| SitProperties.FirstCommandNotUnderstood | Assets/Scripts/EntSentadoController.cs:899-905 | at level 1 step 1 the heard command shows a question mark and the cookie button, moves to step 2 and does not animate |
| SitProperties.SecondCommandUnderstood | Assets/Scripts/EntSentadoController.cs:893-898 | at level 1 step 3 the heard command makes the dog sit, says "¡Sentado!" and moves to step 4 |
| SitProperties.CooldownOnlyGatesAnimation | Assets/Scripts/EntSentadoController.cs:949-984 | the animation cooldown never changes the training position, flags, timer or instruction that any event produces |
| SitProperties.CooldownSwallowsRepeat | Assets/Scripts/EntSentadoController.cs:921-928 | outside a voice step a phrase repeated before the animation ends changes nothing more |
| SitProperties.FinishRestarts | Assets/Scripts/EntSentadoController.cs:1176-1186 | after level 3 the two waits restart the training at level 1 step 1, awaiting the voice command |
| SitProperties.SentadoIsHeard | Assets/Scripts/EntSentadoController.cs:622 | the phrase "sentado" matches the sit keywords |
| SitProperties.PaddedCapitalisedIsHeard | Assets/Scripts/EntSentadoController.cs:879-885 | a capitalised keyword with surrounding spaces, "  Sentado ", normalises to "sentado" and is heard as the sit command |
| SitProperties.NeverStuck | Assets/Scripts/EntSentadoController.cs:730-1174 | every reachable state has an awaited input that moves the script one step, or a pending wait whose end moves the timer |
| SitProperties.DriverIsExpected | Assets/Scripts/EntSentadoController.cs:730-1174 | with no wait pending, some user input is exactly what the current step awaits |
| SitProperties.ScriptInsideLevel | Assets/Scripts/EntSentadoController.cs:730-773 | every non-terminal step of a level awaits a user input |
| PawTraining.AvanzarPasoNivel1 | Assets/Scripts/EntPataController.cs:130-185 | one step forward; arms what the level-1 script table names, or schedules the level change at its end; the paw is not understood at step 2 and is understood at step 5 |
| PawTraining.AvanzarPasoNivel2 | Assets/Scripts/EntPataController.cs:204-244 | one step forward; arms what the level-2 script table names, or schedules the level change at its end |
| PawTraining.AvanzarPasoNivel3 | Assets/Scripts/EntPataController.cs:610-650 | one step forward; arms what the level-3 script table names, or schedules the end of the training |
| PawTraining.IniciarNivel1 | Assets/Scripts/EntPataController.cs:113-128 | level 1 starts at its first step, awaiting the sit command, after an animation reset |
| PawTraining.IniciarNivel2 | Assets/Scripts/EntPataController.cs:187-202 | level 2 starts at its first step, awaiting the sit command, after an animation reset |
| PawTraining.IniciarNivel3 | Assets/Scripts/EntPataController.cs:593-608 | level 3 starts at its first step, awaiting the sit command, after an animation reset |
| PawTraining.EjecutarComando | Assets/Scripts/EntPataController.cs:400-446 | outside the cooldown the command animates, says its message and starts the cooldown; inside it nothing happens; the training position never moves |
| PawTraining.Recompensa | Assets/Scripts/EntPataController.cs:284-292 | a reward shows its model and its message and leaves the training position alone |
| PawTraining.SentadoEsperado | Assets/Scripts/EntPataController.cs:302-324 | the awaited sit command clears its flag and advances one step at every level, with no level-1 exception: with the cooldown off it plays the sit animation and shows its message, with it on nothing animates and the message stays, and either way the cooldown is on afterwards |
| PawTraining.PataEsperada | Assets/Scripts/EntPataController.cs:326-362 | the awaited paw command clears its flag and moves one step forward; at level 1 before it is understood it shows a question mark and animates nothing; otherwise the dog gives the paw: with the cooldown off it plays the paw animation and shows its message, with it on nothing animates and the message stays, and either way the cooldown is on afterwards |
| PawTraining.ModoLibre | Assets/Scripts/EntPataController.cs:364-385 | outside training steps a sit keyword wins; a paw keyword gives the paw only if the dog is seated, and otherwise says "¡Primero siéntate!"; any other phrase does nothing |
| PawTraining.ProcesarComandoVoz | Assets/Scripts/EntPataController.cs:294-386 | the sit gate is consulted first, then the paw gate, then free mode unless the cooldown is on; a gate ignores every phrase but its own keywords |
| PawTraining.ClickGalleta | Assets/Scripts/EntPataController.cs:521-551 | without the flag nothing happens; with it the button hides and the step advances at level 1 steps 3 and 6 and at level 2 |
| PawTraining.ClickAcariciarAsWritten | Assets/Scripts/EntPataController.cs:554-574 | as written: with the flag, the button hides and the step advances only at level 2 step 4 or level 3 step 2 |
| PawTraining.ClickPelotaAsWritten | Assets/Scripts/EntPataController.cs:577-591 | as written: with the flag, the button hides and the step advances only at level 3 step 3 |
| PawTraining.ClickAcariciar | Assets/Scripts/EntPataController.cs:628-633 | corrected: advances at level 2 step 4 and at level 3 step 3, the step where level 3 arms the pet button |
| PawTraining.ClickPelota | Assets/Scripts/EntPataController.cs:635-640 | corrected: advances at level 3 step 4, the step where level 3 arms the ball |
| PawTraining.IniciarEntrenamiento | Assets/Scripts/EntPataController.cs:104-111 | after the warm-up wait the training is at level 1 step 1, awaiting the sit command, with no wait pending |
| PawTraining.AvanzarDeNivel | Assets/Scripts/EntPataController.cs:246-263 | the first wait raises the level, resets the animation and starts the second wait |
| PawTraining.IniciarSiguienteNivel | Assets/Scripts/EntPataController.cs:265-281 | the second wait starts level 2 or 3, or restarts past level 3 |
| PawTraining.FinalizarEntrenamiento | Assets/Scripts/EntPataController.cs:652-657 | the end of training announces the restart and starts the last wait |
| PawTraining.Reiniciar | Assets/Scripts/EntPataController.cs:658-662 | the restart puts the training back at level 1 step 1, awaiting the sit command |
| PawProperties.InicialInv | Assets/Scripts/EntPataController.cs:51-102 | the state after `Start` satisfies the invariant of the corrected machine |
| PawProperties.Progress | Assets/Scripts/EntPataController.cs:294-591 | for the corrected machine (`Step`, with the level-3 click fix), in every reachable state an input advances the script by exactly one step when it is what the script awaits, and moves nothing otherwise |
| PawProperties.SitGateProgress | Assets/Scripts/EntPataController.cs:302-324 | the progress property while the sit command is awaited |
| PawProperties.PawGateProgress | Assets/Scripts/EntPataController.cs:326-362 | the progress property while the paw command is awaited |
| PawProperties.FreeModeProgress | Assets/Scripts/EntPataController.cs:364-385 | with no voice step awaited, a phrase is never expected and never moves the training |
| PawProperties.CookieProgress | Assets/Scripts/EntPataController.cs:521-551 | the progress property for the cookie button |
| PawProperties.PetProgress | Assets/Scripts/EntPataController.cs:628-633 | the progress property for the pet button, as corrected |
| PawProperties.BallProgress | Assets/Scripts/EntPataController.cs:635-640 | the progress property for the ball button, as corrected |
| PawProperties.StepPreservesInv | Assets/Scripts/EntPataController.cs:104-662 | for the corrected machine (`Step`), every event keeps the flags in agreement with the script and keeps the single pending wait on terminal steps |
| PawProperties.RunPreservesInv | Assets/Scripts/EntPataController.cs:104-662 | for the corrected machine (`Run`), any sequence of events keeps the invariant |
| PawProperties.ReachableInv | Assets/Scripts/EntPataController.cs:51-662 | for the corrected machine (`Run`), every state reached from `Start` satisfies the invariant |
| PawProperties.OyePataIffPata | Assets/Scripts/EntPataController.cs:21 | since every paw keyword contains "pata", the paw list matches exactly the phrases containing "pata" |
| PawProperties.SentadoIsHeard | Assets/Scripts/EntPataController.cs:20 | the phrase "sentado" matches the sit keywords |
| PawProperties.PataIsHeard | Assets/Scripts/EntPataController.cs:21 | the phrase "pata" matches the paw keywords |
| PawProperties.FirstPawNotUnderstood | Assets/Scripts/EntPataController.cs:341-347 | at level 1 step 2 the heard paw command shows a question mark and the cookie button, moves to step 3 and does not animate |
| PawProperties.SecondPawUnderstood | Assets/Scripts/EntPataController.cs:335-340 | at level 1 step 5 the heard paw command gives the paw, says "¡Dame la pata!" and moves to step 6 |
| PawProperties.PawNeedsSeatedDog | Assets/Scripts/EntPataController.cs:372-384 | outside training steps a paw phrase animates exactly when the dog is seated, and otherwise shows "¡Primero siéntate!" |
| PawProperties.NeverStuck | Assets/Scripts/EntPataController.cs:130-650 | for the corrected machine (`Step`), every reachable state has an awaited input that moves the script one step, or a pending wait whose end moves the timer; the as-written click handlers do not have this property (see Findings) |
| PawProperties.DriverIsExpected | Assets/Scripts/EntPataController.cs:130-650 | for the corrected machine (`Step`), with no wait pending, some user input is exactly what the current step awaits |
| PawProperties.ScriptInsideLevel | Assets/Scripts/EntPataController.cs:130-185 | every non-terminal step of a level awaits a user input |
| PawProperties.PetAtStep3AsWritten | Assets/Scripts/EntPataController.cs:567 | as written, the pet click at level 3 step 3 clears the only armed flag without advancing and leaves no wait pending |
| PawProperties.DeadRunAsWritten | Assets/Scripts/EntPataController.cs:554-591 | as written, a state with nothing armed and no wait pending never moves again, whatever events follow |
| PawProperties.Level3VoiceSteps | Assets/Scripts/EntPataController.cs:610-626 | at level 3 the sit and paw commands bring the training to step 3, awaiting the pet button |
| PawProperties.AsWrittenGetsStuck | Assets/Scripts/EntPataController.cs:554-591 | as written, sit, paw and pet at level 3 leave the training at step 3 forever, for any later events |
| PawProperties.AtiendeAsWritten | Assets/Scripts/EntPataController.cs:294-361 | as written, at a waiting step of level 1 or 2 the input that step awaits (the heard keyword, or the armed button, lines 521-574) moves to the next waiting step, or closes the level when that step is terminal |
| PawProperties.SigueAsWritten | Assets/Scripts/EntPataController.cs:130-245 | as written, inputs answering the steps of level 1 or 2 in script order reach the terminal step with every flag down and the level-change wait pending |
| PawProperties.JugarSigue | Assets/Scripts/EntPataController.cs:130-245 | saying the sit and paw keywords and clicking the armed buttons in the order the level arms them answers every step of level 1 or 2 up to its terminal step |
| PawProperties.LevelChangeAsWritten | Assets/Scripts/EntPataController.cs:246-283 | after a closed level 1 or 2, the two waits of `AvanzarDeNivel` start the next level at step 1 with only the sit flag armed |
| PawProperties.LevelAsWritten | Assets/Scripts/EntPataController.cs:130-283 | as written, a level 1 or 2 played as its script asks, followed by the level change, starts the next level at step 1 |
| PawProperties.AsWrittenReachesLevel3 | Assets/Scripts/EntPataController.cs:51-283 | as written, from `Start` the warm-up wait, levels 1 and 2 played as asked and the two level changes reach level 3 step 1 with only the sit flag armed and no wait pending |
| PawProperties.AsWrittenStuckFromStart | Assets/Scripts/EntPataController.cs:554-591 | as written, from `Start` playing levels 1 and 2 as asked and then "sentado", "pata" and the pet click at level 3 leaves the training at level 3 step 3 with no wait pending, whatever events follow |
| PawProperties.CorrectedLevel3Finishes | Assets/Scripts/EntPataController.cs:610-650 | with the corrected handlers, sit, paw, pet and ball finish level 3 and schedule the restart |
| Panels.ShowOnlyPanel | Assets/Scripts/UIManager.cs:51-61 | the requested panel is active and every other panel inactive |
| Panels.Visible | Assets/Scripts/UIManager.cs:51-61 | when exactly one panel is active, it names that panel |
| Panels.Start | Assets/Scripts/UIManager.cs:44-48 | the app opens on the main menu alone, with no selection made |
| Panels.GoTo | Assets/Scripts/UIManager.cs:65-83 | the four navigation buttons show their panel alone and change nothing else |
| Panels.ElegirPerro | Assets/Scripts/UIManager.cs:85-97 | either dog button shows the dog panel alone and switches the camera on, without selecting anything |
| Panels.OK | Assets/Scripts/UIManager.cs:99-105 | confirming the dog marks it chosen, shows the trick list and switches the camera on |
| Panels.SentadoTru | Assets/Scripts/UIManager.cs:107-112 | the sit trick shows its instructions and marks the sit trick chosen |
| Panels.PataTru | Assets/Scripts/UIManager.cs:114-119 | the paw trick shows its instructions and marks the paw trick chosen |
| Panels.Play | Assets/Scripts/UIManager.cs:121-149 | dog and sit chosen: sit training with the camera on; dog and paw only: camera on, panel unchanged; no dog: dog list; otherwise the trick list when a trick flag is 0 |
| Panels.ApplyPreservesInv | Assets/Scripts/UIManager.cs:51-149 | every button keeps exactly one panel active and the flags 0 or 1, never clears a selection and never switches the camera off |
| Panels.RunPreservesInv | Assets/Scripts/UIManager.cs:51-149 | any sequence of buttons keeps that invariant |
| Panels.ReachableInv | Assets/Scripts/UIManager.cs:44-149 | from `Start` on, exactly one panel is ever shown |
| Panels.PlayAlwaysAnswers | Assets/Scripts/UIManager.cs:121-149 | with 0/1 flags Play opens the sit training, switches the camera on, or shows the dog list or the trick list |
| Panels.PlayIdempotent | Assets/Scripts/UIManager.cs:121-149 | pressing Play twice is the same as pressing it once |
| Panels.SitTrainingPath | Assets/Scripts/UIManager.cs:85-149 | dog, OK, sit trick and Play lead to the sit training panel with the camera on |
| Microphone.ShowOnlyPanel | Assets/Scripts/VoiceController.cs:29-32 | the permission panel is shown exactly when it is the panel asked for; nothing else changes |
| Microphone.UpdateButtonUI | Assets/Scripts/VoiceController.cs:229-259 | afterwards the statuses, buttons and indicators all agree with the permission and on/off flags |
| Microphone.InitializeMicrophone | Assets/Scripts/VoiceController.cs:142-154 | the first reported device is chosen; with no device the previous choice stays |
| Microphone.Conceder | Assets/Scripts/VoiceController.cs:120-131 | a granted permission is recorded, the panel hidden, and the microphone left as it was |
| Microphone.RequestMicrophonePermission | Assets/Scripts/VoiceController.cs:88-112 | unauthorised: panel shown and one check pending; authorised: permission taken at once, panel hidden; neither touches the microphone, buttons or indicators |
| Microphone.CheckPermissionAfterRequest | Assets/Scripts/VoiceController.cs:114-140 | the permission becomes the platform's answer, the panel hides only on a grant, and the UI agrees afterwards |
| Microphone.StartMicrophone | Assets/Scripts/VoiceController.cs:178-206 | with a device and no exception the device records and the status reads 1; otherwise the microphone is marked off |
| Microphone.StopMicrophone | Assets/Scripts/VoiceController.cs:208-227 | a recording on the chosen device ends and the status reads 0; otherwise nothing changes |
| Microphone.ActivarMicrofono | Assets/Scripts/VoiceController.cs:61-75 | without permission it requests it; when on it does nothing; otherwise the microphone is on exactly when a device is chosen and starting succeeds |
| Microphone.DesactivarMicrofono | Assets/Scripts/VoiceController.cs:78-86 | when on the microphone goes off with status 0 and the UI agrees; when off nothing changes |
| Microphone.ToggleMicrophone | Assets/Scripts/VoiceController.cs:156-176 | without permission it requests it; otherwise the UI agrees afterwards and an on microphone goes off |
| Microphone.Start | Assets/Scripts/VoiceController.cs:34-58 | the app starts with the microphone off, the permission as the platform says, the panel shown only while a check is pending, and the UI agreeing |
| Microphone.OnDestroy | Assets/Scripts/VoiceController.cs:274-281 | destruction ends any recording on the chosen device and changes nothing else |
| Microphone.StartInv | Assets/Scripts/VoiceController.cs:34-58 | after `Start` the integer statuses and the indicators follow the flags |
| Microphone.StepPreservesInv | Assets/Scripts/VoiceController.cs:61-281 | every button, toggle, permission answer, panel change or destruction keeps the statuses and indicators in step with the flags |
| Microphone.RunPreservesInv | Assets/Scripts/VoiceController.cs:61-281 | any sequence of such events keeps that invariant |
| Microphone.Reachable | Assets/Scripts/VoiceController.cs:34-281 | every state reached from `Start` keeps the statuses and indicators in step with the flags |
| Microphone.ActiveIffStatuses | Assets/Scripts/VoiceController.cs:261-287 | in such a state the microphone is active exactly when both status getters read 1, and they read only 0 or 1 |
| Microphone.ToggleIsActivateOrDeactivate | Assets/Scripts/VoiceController.cs:156-176 | toggling is the same as pressing deactivate when permitted and on, and activate otherwise |
| Microphone.ActivarIdempotent | Assets/Scripts/VoiceController.cs:61-75 | with permission and a working device, pressing activate twice is pressing it once |
| Microphone.ActivarThenDesactivar | Assets/Scripts/VoiceController.cs:61-86 | from a consistent, permitted, off state, activate then deactivate restores the state exactly |
| Microphone.FailedStartKeepsMicOff | Assets/Scripts/VoiceController.cs:193-205 | with no device or a throwing start, activation leaves the microphone off, status 0, and activate still offered |
| Microphone.DeniedCheckDisablesButtons | Assets/Scripts/VoiceController.cs:132-139 | a denied check leaves the microphone inactive, permission status 0 and both buttons disabled |
| Microphone.NoPermissionNoMicrophone | Assets/Scripts/VoiceController.cs:63-67 | without permission neither activate nor toggle switches the microphone on |
| Microphone.DirectGrantLeavesButtonsStale | Assets/Scripts/VoiceController.cs:100-111 | a grant the platform already holds leaves the activate button disabled although the microphone is permitted and off |

## Left out

- Timing. Wait durations, the typewriter effect of `MostrarInstruccion`
  and `MantenerInstruccionVisible` are left out. Every wait is an explicit
  event, so any interleaving of inputs and waits is covered. The instruction
  text changes in one update.
- `DesactivarResetDespuesDeTiempo`, which clears the animator's Reset
  parameter after half a second, is part of the engine side. It is not
  modelled beyond the `ResetAnimation` effect.
- The level label (`levelText`) only displays `nivelActual` and is left
  out. So are `Debug.Log` calls and the null checks on scene references:
  every reference is taken to be assigned.
- Text.Lower: lower-cases ASCII letters only. `ToLower` also folds accented
  and other non-ASCII letters, and its result depends on the culture.
- Text.Trim: removes ASCII white space only. `Trim` also removes Unicode
  white space.
- The animator state. The paw controller's check that the dog is seated,
  `GetCurrentAnimatorStateInfo(0).IsName("Sentado")`, is an input of the
  voice event.
- Microphone permission and devices. The authorisation answer, the device
  list and the exception of `Microphone.Start` are inputs.
- StopMicrophone: assumes `Microphone.IsRecording` and `Microphone.End` do
  not throw. The catch branch of the source only logs, so it would leave
  the state unchanged.
- `VoiceController.GetMicrophoneClip` returns the audio buffer, which is not
  modelled. `GetMicStatus`, `GetPermissionStatus` and `IsMicrophoneActive`
  are plain field reads; `Microphone.ActiveIffStatuses` states what they
  promise.
- `UIManager.Salir` and `UIManager.LoadSceneByName` quit the application and
  load a scene. Both are engine calls outside the model. The `Awake`
  singleton set-up is left out too.
- Panels.Start: the camera's initial state is a parameter, since the scene
  sets it. The selection flags start at 0, their field initialisers; a
  different value set in the Unity inspector is not modelled.
- The camera is one boolean that is only ever switched on; the GameObject
  it stands for is not modelled.
- EntSentadoController.cs keeps an older, commented-out copy of the
  controller in lines 1-600. Only the live class from line 604 on is
  modelled.
- The speech recogniser (KKSpeechRecognizer) and the other scripts that
  feed phrases to `ProcesarComandoVoz` are not part of this model. A voice
  result is the `Voice` event.

## Findings

| source | as written | input that shows it | evidently intended | confidence | as-written member | corrected member |
|---|---|---|---|---|---|---|
| Assets/Scripts/EntPataController.cs:554-591 | in level 3, `ClickAcariciar` advances only at step 2 and `ClickPelota` only at step 3, but `AvanzarPasoNivel3` arms the pet button at step 3 and the ball at step 4 (lines 628-640) | from `Start`, play levels 1 and 2 as the script asks; in level 3 say "sentado", then "pata", then click the pet button; the click clears the pet flag at step 3 without advancing, and no flag or wait is left, so the training never reaches step 4 | pet advances at level 3 step 3 and ball at step 4, so that the ball step and the end of training are reached | not executed | PawProperties.AsWrittenStuckFromStart | PawProperties.CorrectedLevel3Finishes |
