# sd-mode controller, modelled in Dafny

The controller in `sd-mode.cpp` runs on an ESP32 board that watches a face-recognition module over the serial line. It works in one of two modes:

- **detector** ("oya", mode 1): a line that names face 1 sends a LINE Notify message and a GET to a trigger server on the desktop PC.
- **intercom** (mode 2): a line that names face 2 to 5 announces that visitor.

`setup` reads the Wi-Fi name, the password, the mode and the notification token from four text files on an SD card. It then joins the network and announces the mode it booted in. Each `loop` pass polls the serial line and runs the arm of the `switch (mode)` for the current mode. An operator can type `config` followed by three lines: a network name, a password and a mode selector. That rewrites the card and re-reads the settings.

The model has six modules, one file each:

- `Optional`: the Option type.
- `Text`: the Arduino `String` operations the sketch uses: `indexOf`, `trim`, `toInt` (C `atol`) and decimal rendering.
- `Card`: the SD card as a map from path to text, with `readFile` as a character loop. `writeFile` takes how the write goes as a parameter: the open fails, the print stops after some characters, or the whole text is written.
- `Events`: the line classifiers of both modes and the table of arrival messages.
- `Notify`: the HTTP request `sendMessage` builds.
- `Controller`: the `Device` class. Its fields are the sketch's globals (`kaonashi_count`, `token`, `ssid`, `pass`, `mode0`, `mode`), the card, the queue of waiting serial lines and a ghost trace of everything sent out. It has `Setup`, `LoopStep` and one method per arm of `loop`.

The central invariant is `Device.Valid`: the idle counter stays within 0..1000, and once the settings are loaded, the in-memory settings equal what `readFile` returns for the card. The constructor establishes it. `Setup`, `LoopStep`, every arm of `loop` and both reconfigurations preserve it. `SendMessage`, `ReadLine`, `IntercomRespond` and `Boot` are steps inside those methods and do not state it themselves.

Each pass of `loop` and each reconfiguration is specified by a twostate predicate that gives its whole new state. The other methods of the device state their new state in plain `ensures`:

- `DetectorLineHandled` and `IntercomLineHandled`: a pass with a waiting line.
- `IntercomIdleHandled`: an intercom pass with nothing waiting.
- `DetectorReconfigured` and `IntercomReconfigured`: the two reconfigurations.

How the card writes of a reconfiguration go is the parameter `writes` (a `CardWrites` value), chosen by the card and not by the controller. The contracts state the card's contents for every outcome. When every write goes through, they state that the settings are the typed ones.

The outside effects are stated over the `Effect` datatype (`Connect`, `Notify`, `TriggerGet`). `Wire` maps an effect to the HTTP request it puts on the network.

## Model

| member | source | states |
|---|---|---|
| Text.FindFrom | sd-mode.cpp:259-260 | the search `indexOf` relies on returns the first position at or after the start where the needle occurs, or -1 exactly when there is none |
| Text.IndexOf | sd-mode.cpp:259-260 | `indexOf` returns -1 or the first position where the needle occurs; -1 on a non-empty text means it occurs nowhere; an empty text always gives -1 |
| Text.Contains | sd-mode.cpp:338-351 | the test `indexOf(sub) != -1`; what it means is stated by `Text.ContainsIffOccurs` |
| Text.ContainsIffOccurs | sd-mode.cpp:259-260 | for a non-empty needle, `indexOf(sub) != -1` holds exactly when `sub` occurs somewhere in the text |
| Text.Trim | sd-mode.cpp:254 | `trim` keeps one contiguous slice of the line: only white space is removed in front of and behind it, and the result neither starts nor ends with white space |
| Text.TrimUnpadded | sd-mode.cpp:254 | trimming a text without surrounding white space leaves it unchanged |
| Text.TrimIdempotent | sd-mode.cpp:254 | trimming twice is the same as trimming once |
| Text.DecimalText | sd-mode.cpp:304 | `String(mode)` is a non-empty run of decimal digits without a leading zero |
| Text.DigitsValueOfDecimal | sd-mode.cpp:304 | the digits of `String(n)` denote `n` |
| Text.DigitPrefixOfDigits | sd-mode.cpp:224 | the digit run `toInt` reads from a digit string followed by a non-digit is exactly that digit string |
| Text.DecimalRoundTrip | sd-mode.cpp:224 | `toInt(String(n) + rest)` is `n` when `rest` does not continue the number |
| Text.NoDigitsIsZero | sd-mode.cpp:224 | a text without a digit after the optional white space and sign decodes to 0, so a missing mode file does too |
| Text.ToInt | sd-mode.cpp:224 | `toInt` as C `atol`; a negative result needs a `-` as the first character after the leading white space (its values are stated by `Text.DecimalRoundTrip` and `Text.NoDigitsIsZero`) |
| Card.ReadFile | sd-mode.cpp:67-82 | the character loop yields the file's whole text, or "" when the file does not exist |
| Card.AfterWrite | sd-mode.cpp:87-96 | after a write, the file reads as the text when the write went through, as before when the open failed, and as the prefix of the text that got out when the print stopped part way |
| Card.WriteFile | sd-mode.cpp:84-98 | no other file changes, and the written file then reads as `AfterWrite` says for the outcome of this write |
| Events.FaceTag | sd-mode.cpp:260 | face tag `n` is `face` followed by the digit `n`, so different faces have different tags |
| Events.ArrivalMessage | sd-mode.cpp:341-353 | every arrival message ends in が来た, and visitor `n`'s message starts with `n番` |
| Events.DetectorEvent | sd-mode.cpp:254-279 | the detector's reading of a line: only face 1 arrives; arrival or unknown arrival exactly when the trimmed line contains `name`; a request only for a trimmed `config` |
| Events.IntercomEvent | sd-mode.cpp:338-358 | the intercom's reading of a line: never a request; an arrival names one of visitors 2..5 whose tag the line contains; noise exactly when `name` is missing |
| Events.ArrivalMessagesDistinct | sd-mode.cpp:341-353 | the five arrival messages are pairwise different |
| Events.IntercomFirstMatchWins | sd-mode.cpp:338-357 | a waiting intercom line reads as visitor `k` exactly when it contains `name` and `face<k>` and no tag tried earlier |
| Events.IntercomEventRange | sd-mode.cpp:338-358 | an intercom line is an unknown arrival exactly when it contains `name` and none of the four visitor tags |
| Events.DetectorReconfigureIff | sd-mode.cpp:259-279 | a detector line requests reconfiguration exactly when its trimmed text is `config`; the `name` test never gets in the way |
| Events.OccurrenceSurvivesTrim | sd-mode.cpp:254-260 | an occurrence of a tag without surrounding white space lies inside the part `trim` keeps |
| Events.OccurrenceBeforeTrim | sd-mode.cpp:254-260 | an occurrence in the trimmed line is an occurrence in the raw line |
| Events.TrimKeepsTag | sd-mode.cpp:254-260 | `trim` never changes whether a line contains such a tag |
| Events.DetectorArrivalOnRawLine | sd-mode.cpp:254-277 | the detector's arrival and unknown-arrival readings are decided by `name` and `face1` in the raw line |
| Notify.HeaderValue | sd-mode.cpp:432-433 | the lookup finds a value exactly when a header of that name exists, and the value it finds belongs to such a header |
| Notify.NotifyRequest | sd-mode.cpp:430-436 | `sendMessage`'s request is a POST to the notify endpoint with two headers (its contents are stated by `Notify.NotifyRequestCarries`) |
| Notify.FormValue | sd-mode.cpp:435 | a value read back from a form body is what follows `field=` |
| Notify.BearerCredential | sd-mode.cpp:433 | a credential read back from an Authorization value is what follows `Bearer ` |
| Notify.NotifyRequestCarries | sd-mode.cpp:427-442 | `sendMessage` builds a POST to the notify endpoint with the form content type; the token comes back out of the bearer header and the message, unencoded, out of the body |
| Notify.NotifyRequestInjective | sd-mode.cpp:430-436 | two requests are equal exactly when their messages and their tokens are |
| Controller.NoticeTextInjective | sd-mode.cpp:236-242 | the boot and arrival texts are pairwise different, so a notice stands for its message |
| Controller.NoticeText | sd-mode.cpp:236-242 | the text a notice stands for; exactly the arrival notices end in が来た |
| Controller.Wire | sd-mode.cpp:263-265 | joining a network sends no request; a notification and the trigger each send one |
| Controller.WireCarries | sd-mode.cpp:262-265 | a notification goes out as a POST carrying its own text and the token it was sent with; the trigger is a bare GET of the server URL |
| Controller.WireInjective | sd-mode.cpp:427-442 | two notifications send the same request exactly when they are the same notice with the same token |
| Controller.ModeFileBranches | sd-mode.cpp:220-224 | a mode file that is "1" followed by nothing or a non-digit (such as a line end) runs the detector arm, one that is "2" followed the same way runs the intercom arm, and a missing file runs the default arm |
| Controller.LoopBranch | sd-mode.cpp:246-422 | `switch (mode)`: case 1 is the detector arm, case 2 the intercom arm, and every other value the default arm |
| Controller.SelectedMode | sd-mode.cpp:299-303 | the selector picks mode 1 exactly when it is `oya`, and mode 2 otherwise |
| Controller.SelectedModeDecodes | sd-mode.cpp:304-318 | the decimal text of the selected mode decodes back to it |
| Controller.BootNotice | sd-mode.cpp:236-242 | the announcement is the detector text exactly for mode 1 and the intercom text for every other mode |
| Controller.SelectedModeRoundTrip | sd-mode.cpp:297-304 | the text written to `/mode.txt` is "1" exactly when the selector is `oya`, "2" otherwise, and it decodes back to the selected mode |
| Controller.PartialModeWrite | sd-mode.cpp:304 | a mode write that stops part way leaves a file decoding to the selected mode or to 0 |
| Controller.DetectorRewriteMode | sd-mode.cpp:297-318 | from detector mode, a failed open keeps detector mode; a complete mode write gives the detector exactly for `oya` and the intercom otherwise; a print that stopped before the digit leaves the default arm, and one that got the digit out gives the selected mode |
| Controller.NextIdleCount | sd-mode.cpp:362-368 | one idle poll keeps the counter within 0..1000 |
| Controller.IdleCountCycles | sd-mode.cpp:362-368 | from 0, after `n` idle polls the counter is `n mod 1001`, so always within 0..1000 |
| Controller.DetectorEffects | sd-mode.cpp:259-279 | a detector line acts outside only when it is the target's arrival, and then it sends the arrival notice followed by the trigger GET |
| Controller.IntercomEffects | sd-mode.cpp:338-357 | an intercom line sends at most one notice, an arrival notice for one of visitors 2..5 with the current token |
| Controller.DetectorAlert | sd-mode.cpp:259-279 | a line with `name` and `face1` sends exactly one notification, then one trigger GET; `name` without `face1` sends nothing; a line with `name` never reconfigures |
| Controller.IntercomAlert | sd-mode.cpp:338-357 | a framed line notifies visitor `k` exactly when it names `k` and no earlier tag; a framed line naming no visitor sends nothing |
| Controller.StoreCredentials | sd-mode.cpp:285-295 | the name and the password files read as their write outcomes say, nothing else changes, and when both writes go through the card holds the typed name and password |
| Controller.StoreSettings | sd-mode.cpp:285-304 | the name, password and mode files read as their outcomes say, with the mode file getting `String(mode)` of the selected mode; the token file is kept; when every write goes through the card holds the typed name and password and a mode file decoding to the selected mode |
| Controller.LoadSettings | sd-mode.cpp:315-318 | the read-back yields what the card holds, and the mode is `toInt` of the mode file |
| Controller.Device.constructor | sd-mode.cpp:175-180 | at power-on every global is zero or empty, the mode is 0 and nothing has been sent |
| Controller.Device.SendMessage | sd-mode.cpp:427-442 | exactly one notification is sent, with the current token |
| Controller.Device.ReadLine | sd-mode.cpp:253 | the oldest waiting line is consumed and returned |
| Controller.Device.Setup | sd-mode.cpp:184-243 | a failed mount or a missing card changes nothing; otherwise the settings mirror the card, the mode is `toInt` of the mode file, and exactly one join and then one boot notice are sent |
| Controller.Device.Boot | sd-mode.cpp:220-242 | the four files are read, the mode decoded, the network joined and the mode announced, without touching the card or the serial buffer |
| Controller.Device.ReconfigureFromDetector | sd-mode.cpp:279-327 | the next three lines are consumed; each of the three files reads as its write outcome says; the settings mirror the card again; the token is kept; when every write goes through, `ssid`, `pass` and `mode` are the typed name, password and selected mode; one join of the typed network and one boot notice for the read-back mode are sent |
| Controller.Device.ReconfigureFromIntercom | sd-mode.cpp:369-415 | three lines are consumed; only the name and password files are written, each as its outcome says; `mode0` and `mode` are read back from the untouched mode file, so the mode stays 2 whatever the selector; when both writes go through, `ssid` and `pass` are the typed ones; one join and one intercom notice are sent |
| Controller.Device.DetectorRespond | sd-mode.cpp:254-327 | a trimmed line alerts as `DetectorEffects` says and keeps every setting, or, when it is `config`, reconfigures |
| Controller.Device.DetectorLine | sd-mode.cpp:250-328 | a waiting line resets the counter and is consumed, then handled as the detector's reading of it |
| Controller.Device.DetectorPass | sd-mode.cpp:248-329 | with nothing waiting the detector arm changes nothing; otherwise the waiting line is handled |
| Controller.Device.IntercomRespond | sd-mode.cpp:338-358 | the untrimmed line sends the notice for the visitor it names first, or nothing |
| Controller.Device.IntercomLine | sd-mode.cpp:334-358 | a waiting line resets the counter and is consumed; every setting is kept and only the visitor's notice is sent |
| Controller.Device.IntercomIdle | sd-mode.cpp:359-416 | the idle counter moves on; only a late line that is exactly `config` reconfigures, anything else changes nothing more |
| Controller.Device.IntercomPass | sd-mode.cpp:331-417 | the intercom arm takes the waiting line when there is one, and the idle path otherwise |
| Controller.Device.LoopStep | sd-mode.cpp:245-425 | one pass keeps the invariant and the token, never leaves intercom mode, runs the arm the mode selects with the given write outcomes, and the default arm changes nothing |

## Left out

- The filesystem utilities `listDir`, `createDir`, `removeDir`, `appendFile`, `renameFile`, `deleteFile` and `testFileIO` (sd-mode.cpp:18-65, 100-173): the controller never calls them.
- The card-type and size diagnostics, and all serial logging: they print and decide nothing.
- The `REASSIGN_PINS` variant of mounting: only the outcome matters, and `Setup` takes it as `mounted`.
- The card-type check: `Setup` takes its outcome as `cardAttached`.
- The Wi-Fi busy-wait loops are one `Connect` effect. Whether they end depends on the network.
- The HTTP transport, response codes and the server's reply: these are library calls. Only the request contents and the fact that a request is made are modelled.
- All `delay` calls: the model has no clock, and buffered lines simply wait.
- The `readStringUntil` timeout: in the intercom idle arm the line it returns is the parameter `lateLine`, "" when none comes in time.
- The blocking `while (Serial.available() == 0)` waits: the lines typed while a reconfiguration blocks are the parameter `operatorLines`, appended to the waiting ones. A pass that would block forever (fewer than three lines in all) is excluded by `LoopStep`'s requires. The model does not describe runs that never terminate.
- Text.ToInt: does not model `atol`'s overflow on very long digit runs. Numbers are unbounded.
- Controller.Device.Setup: the serial port's start-up wait is left out.
- Messages are the `Notice` datatype in the trace. `NoticeText` gives their exact texts, and `NoticeTextInjective` shows that no information is lost.
- Strings are sequences of code points, while Arduino `String` and the card work on UTF-8 bytes. This makes no difference to equality or containment. A print that stops part way cuts the text at a byte, though. For a name or password with non-ASCII characters, such a cut may fall inside a character, and the model's `Partial` outcome, which cuts at a character, does not describe that file.
- Card.ReadFile: assumes that a file which exists opens and reads in full. The sketch also returns "" when opening an existing file fails, and a failing `file.read()` adds its error value as a character. The model covers neither case. `Device.Valid` (the settings mirror the card) and the intercom's staying in mode 2 rest on this assumption.
- `win+d.py`, the desktop trigger server: win+d.py is not part of this model. Its only logic is a path comparison, and the rest is keystroke injection and a socket loop.

## Notes on the code

Some behaviours of `sd-mode.cpp` that are easy to misread. The model follows the code in each:

- The notification body is `message=` followed by the raw text. It is not percent-encoded, even though the request declares the form content type `application/x-www-form-urlencoded` (sd-mode.cpp:433-435).
- Only a mode file that decodes to 2 runs the intercom arm. Any other value besides 1 boots with the intercom announcement but then runs the default arm on every pass (sd-mode.cpp:236-242, 419-422).
- In the intercom arm, `config` is only recognised on the idle path. When no line is waiting, the arm reads a new line with a timeout and compares it, untrimmed, with `config` (sd-mode.cpp:360, 369). A `config` line that was already waiting goes to the visitor check and is ignored.
- An intercom reconfiguration reads a mode selector but never writes `/mode.txt`, so the device stays in intercom mode (sd-mode.cpp:390-407).
- The detector's reconfiguration reads the mode file into a local `mode0`, so the global `mode0` keeps its boot value there (sd-mode.cpp:317).
