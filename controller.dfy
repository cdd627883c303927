/**
 * The controller of the two-mode monitoring device: `setup` loads the
 * settings from the SD card, joins the network and announces the mode;
 * each `loop` pass polls the serial line, raises alerts for recognised faces
 * and runs the in-band reconfiguration that rewrites the card.
 */
module Controller {
  import opened Optional
  import opened Text
  import opened Card
  import opened Events
  import opened Notify

  const TRIGGER_URL := "http://10.5.4.170:5000/trigger"
  const DETECTOR_MODE := 1
  const INTERCOM_MODE := 2
  /** The selector line that chooses detector mode during reconfiguration. */
  const DETECTOR_SELECTOR := "oya"
  /** The idle counter starts over after this many empty polls. */
  const IDLE_LIMIT := 1000
  const DETECTOR_BOOT_MESSAGE := "親探知モードとして起動しました"
  const INTERCOM_BOOT_MESSAGE := "インターホンモードとして起動しました"

  // ---------------------------------------------------------------- effects

  /** The fixed texts the sketch hands to `sendMessage`. */
  datatype Notice = DetectorBooted | IntercomBooted | Arrived(face: nat)

  predicate KnownNotice(n: Notice) {
    n.Arrived? ==> 1 <= n.face <= 5
  }

  /** The message text of a notice. */
  function NoticeText(n: Notice): (t: string)
    requires KnownNotice(n)
    ensures |t| > 3 && (n.Arrived? <==> t[|t| - 3..] == "が来た")
  {
    match n
    case DetectorBooted => DETECTOR_BOOT_MESSAGE
    case IntercomBooted => INTERCOM_BOOT_MESSAGE
    case Arrived(k) => ArrivalMessage(k)
  }

  /** Every notice has a text of its own, so a notice stands for its message without loss. */
  lemma NoticeTextInjective(a: Notice, b: Notice)
    requires KnownNotice(a) && KnownNotice(b)
    ensures NoticeText(a) == NoticeText(b) <==> a == b
  {
    if a.Arrived? && b.Arrived? {
      ArrivalMessagesDistinct(a.face, b.face);
    } else if a != b {
      var s, t := NoticeText(a), NoticeText(b);
      assert |s| != |t|;
    }
  }

  /** What the device does to the world outside the card and the serial line. */
  datatype Effect =
    | Connect(ssid: string, pass: string)        // WiFi.begin, then waiting until connected
    | Notify(notice: Notice, token: string)      // sendMessage, with the token it used
    | TriggerGet                                 // the GET to the desktop trigger server

  /** The HTTP request an effect puts on the network; joining a network sends none. */
  function Wire(e: Effect): (r: Option<Request>)
    requires e.Notify? ==> KnownNotice(e.notice)
    ensures r.None? <==> e.Connect?
  {
    match e
    case Connect(_, _) => None
    case Notify(n, token) => Some(NotifyRequest(NoticeText(n), token))
    case TriggerGet => Some(Request("GET", TRIGGER_URL, [], ""))
  }

  /**
   * A notification reaches the service as a POST to its endpoint with the
   * notice's text as the form message and the token as bearer credential;
   * the trigger is a bare GET of the trigger URL.
   */
  lemma WireCarries(e: Effect)
    requires e.Notify? ==> KnownNotice(e.notice)
    ensures e.Notify? ==>
      && Wire(e).value.verb == "POST" && Wire(e).value.url == NOTIFY_URL
      && FormValue(Wire(e).value.body, MESSAGE_FIELD) == Some(NoticeText(e.notice))
      && HeaderValue(Wire(e).value.headers, "Authorization").Some?
      && BearerCredential(HeaderValue(Wire(e).value.headers, "Authorization").value) == Some(e.token)
    ensures e.TriggerGet? ==> Wire(e) == Some(Request("GET", TRIGGER_URL, [], ""))
  {
    if e.Notify? {
      NotifyRequestCarries(NoticeText(e.notice), e.token);
    }
  }

  /** Two notifications put the same request on the network only when they are the same notice with the same token. */
  lemma WireInjective(a: Effect, b: Effect)
    requires a.Notify? && KnownNotice(a.notice) && b.Notify? && KnownNotice(b.notice)
    ensures Wire(a) == Wire(b) <==> a == b
  {
    if Wire(a) == Wire(b) {
      NotifyRequestInjective(NoticeText(a.notice), a.token, NoticeText(b.notice), b.token);
      NoticeTextInjective(a.notice, b.notice);
    }
  }

  // ------------------------------------------------------------ mode values

  /** The three arms of the `switch (mode)` in `loop`. */
  datatype Branch = DetectorBranch | IntercomBranch | ErrorBranch

  function LoopBranch(mode: int): (b: Branch)
    ensures b == DetectorBranch <==> mode == DETECTOR_MODE
    ensures b == IntercomBranch <==> mode == INTERCOM_MODE
  {
    if mode == DETECTOR_MODE then DetectorBranch
    else if mode == INTERCOM_MODE then IntercomBranch
    else ErrorBranch
  }

  /**
   * Decoding `/mode.txt`: a file that is "1" followed by nothing or by a
   * non-digit (a line end, say) selects the detector, one that is "2" followed
   * the same way the intercom, and a missing or empty file the error branch.
   * A longer number such as "12" is not covered: it decodes to 12.
   */
  lemma ModeFileBranches(rest: string)
    requires rest == [] || !IsDigit(rest[0])
    ensures LoopBranch(ToInt("1" + rest)) == DetectorBranch
    ensures LoopBranch(ToInt("2" + rest)) == IntercomBranch
    ensures LoopBranch(ToInt(Stored(map[], MODE_PATH))) == ErrorBranch
  {
    assert DecimalText(1) == "1" && DecimalText(2) == "2";
    DecimalRoundTrip(1, rest);
    DecimalRoundTrip(2, rest);
  }

  /**
   * The announcement `setup` and a reconfiguration send: the detector notice
   * for mode 1 and the intercom notice for every other mode, including the
   * ones that then run the error branch.
   */
  function BootNotice(mode: int): (n: Notice)
    ensures KnownNotice(n)
    ensures n == DetectorBooted <==> mode == DETECTOR_MODE
    ensures n == IntercomBooted <==> mode != DETECTOR_MODE
  {
    if mode == DETECTOR_MODE then DetectorBooted else IntercomBooted
  }

  /** The mode the third reconfiguration line asks for. */
  function SelectedMode(selector: string): (m: int)
    ensures m == DETECTOR_MODE <==> selector == DETECTOR_SELECTOR
    ensures m == DETECTOR_MODE || m == INTERCOM_MODE
  {
    if selector == DETECTOR_SELECTOR then DETECTOR_MODE else INTERCOM_MODE
  }

  /** The decimal text of the selected mode decodes back to it. */
  lemma SelectedModeDecodes(selector: string)
    ensures ToInt(DecimalText(SelectedMode(selector))) == SelectedMode(selector)
  {
    DecimalRoundTrip(SelectedMode(selector), []);
    assert DecimalText(SelectedMode(selector)) + [] == DecimalText(SelectedMode(selector));
  }

  /**
   * The text written to `/mode.txt` decodes to the selected mode, which is the
   * detector exactly when the selector is `oya`.
   */
  lemma SelectedModeRoundTrip(selector: string)
    ensures DecimalText(SelectedMode(selector)) == "1" <==> selector == DETECTOR_SELECTOR
    ensures DecimalText(SelectedMode(selector)) == "2" <==> selector != DETECTOR_SELECTOR
    ensures ToInt(DecimalText(SelectedMode(selector))) == SelectedMode(selector)
    ensures LoopBranch(ToInt(DecimalText(SelectedMode(selector)))) == DetectorBranch <==> selector == DETECTOR_SELECTOR
    ensures LoopBranch(ToInt(DecimalText(SelectedMode(selector)))) == IntercomBranch <==> selector != DETECTOR_SELECTOR
  {
    assert DecimalText(1) == "1" && DecimalText(2) == "2";
    SelectedModeDecodes(selector);
  }

  /**
   * A write of the mode that fails part way leaves a prefix of that one digit:
   * the file then decodes to the selected mode or, when empty, to 0 (the
   * error branch at the next pass).
   */
  lemma PartialModeWrite(selector: string, written: string)
    requires written <= DecimalText(SelectedMode(selector))
    ensures ToInt(written) == SelectedMode(selector) || ToInt(written) == 0
  {
    SelectedModeRoundTrip(selector);
    if written != DecimalText(SelectedMode(selector)) {
      assert written == [];
    }
  }

  /**
   * What the detector's reconfiguration leaves in `/mode.txt`, decoded, when
   * the card held detector mode: a failed open keeps detector mode; a complete
   * write gives detector mode exactly for `oya` and intercom mode otherwise; a
   * print that stopped before the digit leaves an empty file, the error branch.
   */
  lemma DetectorRewriteMode(before: string, selector: string, outcome: WriteOutcome)
    requires ToInt(before) == DETECTOR_MODE
    ensures var branch := LoopBranch(ToInt(AfterWrite(before, DecimalText(SelectedMode(selector)), outcome)));
      && (outcome.OpenFailed? ==> branch == DetectorBranch)
      && (outcome.Written? ==> (branch == DetectorBranch <==> selector == DETECTOR_SELECTOR))
      && (outcome.Written? ==> (branch == IntercomBranch <==> selector != DETECTOR_SELECTOR))
      && (outcome == Partial(0) ==> branch == ErrorBranch)
      && (outcome.Partial? && outcome.count > 0 ==> branch == LoopBranch(SelectedMode(selector)))
  {
    SelectedModeRoundTrip(selector);
    var after := AfterWrite(before, DecimalText(SelectedMode(selector)), outcome);
    if outcome.Partial? {
      PartialModeWrite(selector, after);
      if outcome.count > 0 {
        assert after == DecimalText(SelectedMode(selector));
      }
    }
  }

  // ----------------------------------------------------------- idle counter

  /** One empty poll in intercom mode: the counter starts over at the limit, otherwise counts up. */
  function NextIdleCount(count: int): (r: int)
    ensures 0 <= count <= IDLE_LIMIT ==> 0 <= r <= IDLE_LIMIT
  {
    if count == IDLE_LIMIT then 0 else count + 1
  }

  /** The counter after `polls` empty polls, starting from 0. */
  function IdleCountAfter(polls: nat): int {
    if polls == 0 then 0 else NextIdleCount(IdleCountAfter(polls - 1))
  }

  /** The remainder of `n` on the counter's cycle, from any decomposition of `n`. */
  lemma CycleRemainder(n: int, q: int, r: int)
    requires n == q * (IDLE_LIMIT + 1) + r && 0 <= r <= IDLE_LIMIT
    ensures n % (IDLE_LIMIT + 1) == r
  {
  }

  /** The counter cycles through 0 .. IDLE_LIMIT: it never leaves that range. */
  lemma {:induction false} IdleCountCycles(polls: nat)
    ensures IdleCountAfter(polls) == polls % (IDLE_LIMIT + 1)
    ensures 0 <= IdleCountAfter(polls) <= IDLE_LIMIT
  {
    if polls > 0 {
      IdleCountCycles(polls - 1);
      var q, r := (polls - 1) / (IDLE_LIMIT + 1), (polls - 1) % (IDLE_LIMIT + 1);
      if r == IDLE_LIMIT {
        CycleRemainder(polls, q + 1, 0);
      } else {
        CycleRemainder(polls, q, r + 1);
      }
    }
  }

  // -------------------------------------------------------------- alerts

  /** What one line does outside the device in detector mode (reconfiguration aside). */
  function DetectorEffects(e: Event, token: string): (r: seq<Effect>)
    ensures r != [] <==> e == Arrival(TARGET_FACE)
    ensures r != [] ==> r == [Notify(Arrived(TARGET_FACE), token), TriggerGet]
  {
    if e == Arrival(TARGET_FACE) then [Notify(Arrived(TARGET_FACE), token), TriggerGet] else []
  }

  /** What one waiting line does outside the device in intercom mode. */
  function IntercomEffects(e: Event, token: string): (r: seq<Effect>)
    ensures |r| <= 1
    ensures r != [] ==> r[0].Notify? && r[0].notice.Arrived? && 2 <= r[0].notice.face <= 5 && r[0].token == token
  {
    if e.Arrival? && 2 <= e.face <= 5 then [Notify(Arrived(e.face), token)] else []
  }

  /**
   * Detector mode: a framed line naming the target sends exactly one
   * notification and then one trigger GET; a framed line without it does
   * nothing outside; and a framed line never starts reconfiguration.
   */
  lemma DetectorAlert(line: string, token: string)
    ensures Contains(line, NAME_MARKER) && Contains(line, FaceTag(TARGET_FACE)) ==>
      DetectorEffects(DetectorEvent(line), token) == [Notify(Arrived(TARGET_FACE), token), TriggerGet]
    ensures Contains(line, NAME_MARKER) && !Contains(line, FaceTag(TARGET_FACE)) ==>
      DetectorEffects(DetectorEvent(line), token) == []
    ensures Contains(line, NAME_MARKER) ==> DetectorEvent(line) != ReconfigureRequest
  {
    DetectorArrivalOnRawLine(line);
  }

  /**
   * Intercom mode: a waiting line notifies the arrival of visitor `k`
   * exactly when it is framed, names `k` and names no visitor tried before
   * `k`; and a framed line naming no visitor sends nothing.
   */
  lemma IntercomAlert(data: string, token: string, k: nat)
    requires 2 <= k <= 5
    ensures IntercomEffects(IntercomEvent(data), token) == [Notify(Arrived(k), token)] <==>
      && Contains(data, NAME_MARKER)
      && Contains(data, FaceTag(k))
      && forall j :: 2 <= j < k ==> !Contains(data, FaceTag(j))
    ensures (Contains(data, NAME_MARKER) && forall j :: 2 <= j <= 5 ==> !Contains(data, FaceTag(j))) ==>
      IntercomEffects(IntercomEvent(data), token) == []
  {
    IntercomFirstMatchWins(data, k);
    IntercomEventRange(data);
  }

  // ---------------------------------------------------- card rewrites

  /**
   * How the writes of one reconfiguration go, in the order the sketch makes
   * them; the intercom's reconfiguration makes only the first two.
   */
  datatype CardWrites = CardWrites(ssid: WriteOutcome, pass: WriteOutcome, mode: WriteOutcome)
  {
    predicate CredentialsWritten() {
      ssid.Written? && pass.Written?
    }

    predicate AllWritten() {
      CredentialsWritten() && mode.Written?
    }
  }

  /**
   * The two writes every reconfiguration makes, name first: each of the two
   * files reads afterwards as its outcome says, and no other file changes.
   */
  method StoreCredentials(fs: Store, name: string, password: string, writes: CardWrites) returns (fs': Store)
    ensures SameElsewhere(fs, fs', {SSID_PATH, PASS_PATH})
    ensures Stored(fs', TOKEN_PATH) == Stored(fs, TOKEN_PATH) && Stored(fs', MODE_PATH) == Stored(fs, MODE_PATH)
    ensures Stored(fs', SSID_PATH) == AfterWrite(Stored(fs, SSID_PATH), name, writes.ssid)
    ensures Stored(fs', PASS_PATH) == AfterWrite(Stored(fs, PASS_PATH), password, writes.pass)
    ensures writes.CredentialsWritten() ==> Stored(fs', SSID_PATH) == name && Stored(fs', PASS_PATH) == password
  {
    var named := WriteFile(fs, SSID_PATH, name, writes.ssid);
    fs' := WriteFile(named, PASS_PATH, password, writes.pass);
  }

  /**
   * The detector's reconfiguration also writes, last, the mode the selector
   * chooses, as decimal text; when every write goes through, the card holds
   * the name, the password and a mode file that decodes to the chosen mode.
   */
  method StoreSettings(fs: Store, name: string, password: string, selector: string, writes: CardWrites)
    returns (fs': Store)
    ensures SameElsewhere(fs, fs', {SSID_PATH, PASS_PATH, MODE_PATH})
    ensures Stored(fs', TOKEN_PATH) == Stored(fs, TOKEN_PATH)
    ensures Stored(fs', SSID_PATH) == AfterWrite(Stored(fs, SSID_PATH), name, writes.ssid)
    ensures Stored(fs', PASS_PATH) == AfterWrite(Stored(fs, PASS_PATH), password, writes.pass)
    ensures Stored(fs', MODE_PATH) == AfterWrite(Stored(fs, MODE_PATH), DecimalText(SelectedMode(selector)), writes.mode)
    ensures writes.AllWritten() ==>
      && Stored(fs', SSID_PATH) == name && Stored(fs', PASS_PATH) == password
      && ToInt(Stored(fs', MODE_PATH)) == SelectedMode(selector)
  {
    var credentials := StoreCredentials(fs, name, password, writes);
    var mode := SelectedMode(selector);
    fs' := WriteFile(credentials, MODE_PATH, DecimalText(mode), writes.mode);
    SelectedModeDecodes(selector);
  }

  /** Reading the settings back: name, password, the mode file's text and its decoded value. */
  method LoadSettings(fs: Store) returns (name: string, password: string, modeText: string, mode: int)
    ensures name == Stored(fs, SSID_PATH) && password == Stored(fs, PASS_PATH)
    ensures modeText == Stored(fs, MODE_PATH) && mode == ToInt(modeText)
  {
    name := ReadFile(fs, SSID_PATH);
    password := ReadFile(fs, PASS_PATH);
    modeText := ReadFile(fs, MODE_PATH);
    mode := ToInt(modeText);
  }

  // ------------------------------------------------------------ the device

  /**
   * The device: the globals of the sketch, the SD card, the lines waiting
   * in the serial buffer, and (ghost) everything sent out so far.
   */
  class Device {
    var card: Store
    var input: seq<string>
    var kaonashiCount: int
    var token: string
    var ssid: string
    var pass: string
    var mode0: string
    var mode: int
    ghost var trace: seq<Effect>

    /** The settings in memory are the ones on the card. */
    ghost predicate InSync()
      reads this`card, this`ssid, this`pass, this`token, this`mode
    {
      && ssid == Stored(card, SSID_PATH)
      && pass == Stored(card, PASS_PATH)
      && token == Stored(card, TOKEN_PATH)
      && mode == ToInt(Stored(card, MODE_PATH))
    }

    /** The idle counter stays in range, and once the settings are loaded they mirror the card. */
    ghost predicate Valid()
      reads this`kaonashiCount, this`card, this`ssid, this`pass, this`token, this`mode
    {
      0 <= kaonashiCount <= IDLE_LIMIT && (mode == 0 || InSync())
    }

    /** Nothing but the serial buffer, the idle counter and the trace has changed. */
    twostate predicate SettingsKept()
      reads this
    {
      && card == old(card) && token == old(token) && ssid == old(ssid) && pass == old(pass)
      && mode0 == old(mode0) && mode == old(mode)
    }

    /** Power-on: the globals are zero, the card and the serial buffer are whatever they are. */
    constructor (sd: Store, serial: seq<string>)
      ensures card == sd && input == serial && trace == []
      ensures mode == 0 && kaonashiCount == 0
      ensures token == "" && ssid == "" && pass == "" && mode0 == ""
      ensures Valid()
    {
      card, input := sd, serial;
      kaonashiCount, mode := 0, 0;
      token, ssid, pass, mode0 := "", "", "", "";
      trace := [];
    }

    /** `sendMessage`: one notification, sent with the current token. */
    method SendMessage(notice: Notice)
      modifies this`trace
      ensures trace == old(trace) + [Notify(notice, token)]
    {
      trace := trace + [Notify(notice, token)];
    }

    /** `Serial.readStringUntil('\n')` when a line is waiting: the oldest line, without its terminator. */
    method ReadLine() returns (line: string)
      requires input != []
      modifies this`input
      ensures line == old(input)[0] && input == old(input)[1..]
    {
      line := input[0];
      input := input[1..];
    }

    /**
     * `setup`: when the card mounts and is present, read the four settings,
     * decode the mode, join the network and announce the mode (exactly one
     * notification); otherwise return early and leave everything at zero.
     */
    method Setup(mounted: bool, cardAttached: bool)
      requires Valid()
      modifies this
      ensures Valid()
      ensures !(mounted && cardAttached) ==> unchanged(this)
      ensures mounted && cardAttached ==>
        && InSync()
        && mode0 == Stored(card, MODE_PATH)
        && card == old(card) && input == old(input) && kaonashiCount == old(kaonashiCount)
        && trace == old(trace) + [Connect(ssid, pass), Notify(BootNotice(mode), token)]
    {
      if mounted && cardAttached {
        Boot();
      }
    }

    /** The part of `setup` that runs once the card is usable. */
    method Boot()
      modifies this`ssid, this`pass, this`mode0, this`mode, this`token, this`trace
      ensures InSync() && mode0 == Stored(card, MODE_PATH)
      ensures card == old(card) && input == old(input) && kaonashiCount == old(kaonashiCount)
      ensures trace == old(trace) + [Connect(ssid, pass), Notify(BootNotice(mode), token)]
    {
      ssid, pass, mode0, mode := LoadSettings(card);
      token := ReadFile(card, TOKEN_PATH);
      trace := trace + [Connect(ssid, pass)];
      SendMessage(BootNotice(mode));
    }

    /**
     * What a reconfiguration from detector mode fed with `lines` leaves
     * behind: the first three lines consumed; the name, the password and the
     * selected mode written (each file as before or a prefix of its text);
     * the settings read back; one join of the typed network and one boot
     * notice for the mode read back. The global `mode0` is not touched: the
     * sketch reads the mode file into a local of the same name.
     */
    twostate predicate DetectorReconfigured(lines: seq<string>, writes: CardWrites)
      requires |lines| >= 3
      reads this
    {
      && input == lines[3..]
      && InSync() && token == old(token) && mode0 == old(mode0)
      && SameElsewhere(old(card), card, {SSID_PATH, PASS_PATH, MODE_PATH})
      && Stored(card, SSID_PATH) == AfterWrite(old(Stored(card, SSID_PATH)), lines[0], writes.ssid)
      && Stored(card, PASS_PATH) == AfterWrite(old(Stored(card, PASS_PATH)), lines[1], writes.pass)
      && Stored(card, MODE_PATH) == AfterWrite(old(Stored(card, MODE_PATH)), DecimalText(SelectedMode(lines[2])), writes.mode)
      && (writes.AllWritten() ==> ssid == lines[0] && pass == lines[1] && mode == SelectedMode(lines[2]))
      && trace == old(trace) + [Connect(lines[0], lines[1]), Notify(BootNotice(mode), token)]
    }

    /**
     * The reconfiguration reached from detector mode: the next three lines
     * are the network name, the password and the mode selector; all three
     * are written to the card (each going as `writes` says), the device
     * joins the new network, reads the settings back and announces the mode
     * it now has.
     */
    method ReconfigureFromDetector(lines: seq<string>, writes: CardWrites)
      requires Valid() && mode == DETECTOR_MODE && |lines| >= 3
      modifies this`input, this`card, this`ssid, this`pass, this`mode, this`trace
      ensures Valid() && kaonashiCount == old(kaonashiCount)
      ensures DetectorReconfigured(lines, writes)
    {
      // the sketch reads a line and writes it before reading the next; the
      // serial buffer is not affected by the writes, so the order is the same
      var name, password, selector := lines[0], lines[1], lines[2];
      var written := StoreSettings(card, name, password, selector, writes);
      var newSsid, newPass, freshMode, newMode := LoadSettings(written);
      input, card, ssid, pass, mode, trace :=
        lines[3..], written, newSsid, newPass, newMode, trace + [Connect(name, password), Notify(BootNotice(newMode), token)];
    }

    /**
     * What a reconfiguration from intercom mode fed with `lines` leaves
     * behind: three lines consumed, only the name and the password written,
     * the settings (and `mode0`) read back, so the mode is the one the card
     * held before; one join and one intercom boot notice.
     */
    twostate predicate IntercomReconfigured(lines: seq<string>, writes: CardWrites)
      requires |lines| >= 3
      reads this
    {
      && input == lines[3..]
      && InSync() && token == old(token)
      && mode == INTERCOM_MODE && mode0 == old(Stored(card, MODE_PATH)) && mode == ToInt(mode0)
      && SameElsewhere(old(card), card, {SSID_PATH, PASS_PATH})
      && Stored(card, SSID_PATH) == AfterWrite(old(Stored(card, SSID_PATH)), lines[0], writes.ssid)
      && Stored(card, PASS_PATH) == AfterWrite(old(Stored(card, PASS_PATH)), lines[1], writes.pass)
      && (writes.CredentialsWritten() ==> ssid == lines[0] && pass == lines[1])
      && trace == old(trace) + [Connect(lines[0], lines[1]), Notify(IntercomBooted, token)]
    }

    /**
     * The reconfiguration reached from intercom mode: the same three lines,
     * but only the name and the password are written; the selector is read
     * and dropped, so reading the card back restores the mode it had.
     */
    method ReconfigureFromIntercom(lines: seq<string>, writes: CardWrites)
      requires Valid() && mode == INTERCOM_MODE && |lines| >= 3
      modifies this`input, this`card, this`ssid, this`pass, this`mode0, this`mode, this`trace
      ensures Valid() && kaonashiCount == old(kaonashiCount)
      ensures IntercomReconfigured(lines, writes)
    {
      // the selector (lines[2]) sets `mode`, which the read-back below overwrites
      var name, password := lines[0], lines[1];
      var written := StoreCredentials(card, name, password, writes);
      var newSsid, newPass, freshMode, newMode := LoadSettings(written);
      input, card, ssid, pass, mode0, mode, trace :=
        lines[3..], written, newSsid, newPass, freshMode, newMode, trace + [Connect(name, password), Notify(BootNotice(newMode), token)];
    }

    /**
     * A detector pass with a line waiting: the counter is reset and the line
     * consumed and trimmed; an arrival of the target alerts, and `config`
     * reconfigures with the lines that follow (the ones still waiting, then
     * `operatorLines`, typed while the pass blocks for them).
     */
    twostate predicate DetectorLineHandled(operatorLines: seq<string>, writes: CardWrites)
      requires old(input) != []
      reads this
    {
      && kaonashiCount == 0
      && (DetectorEvent(old(input)[0]) != ReconfigureRequest ==>
            && input == old(input)[1..] && SettingsKept()
            && trace == old(trace) + DetectorEffects(DetectorEvent(old(input)[0]), token))
      && (DetectorEvent(old(input)[0]) == ReconfigureRequest && |old(input)| - 1 + |operatorLines| >= 3 ==>
            DetectorReconfigured(old(input)[1..] + operatorLines, writes))
    }

    /** What the detector does with the line it has read: alert, reconfigure, or nothing. */
    method DetectorRespond(line: string, operatorLines: seq<string>, writes: CardWrites)
      requires Valid() && mode == DETECTOR_MODE
      requires DetectorEvent(line) == ReconfigureRequest ==> |input| + |operatorLines| >= 3
      modifies this
      ensures Valid() && kaonashiCount == old(kaonashiCount)
      ensures DetectorEvent(line) != ReconfigureRequest ==>
        && input == old(input) && SettingsKept()
        && trace == old(trace) + DetectorEffects(DetectorEvent(line), token)
      ensures DetectorEvent(line) == ReconfigureRequest ==> DetectorReconfigured(old(input) + operatorLines, writes)
    {
      var data := Trim(line);
      if Contains(data, NAME_MARKER) {
        if Contains(data, FaceTag(TARGET_FACE)) {
          SendMessage(Arrived(TARGET_FACE));
          trace := trace + [TriggerGet];
        }
      } else if data == CONFIG_COMMAND {
        // each read blocks until a line is there: the waiting ones come first
        ReconfigureFromDetector(input + operatorLines, writes);
      }
    }

    /** The body of `case 1` when a line is waiting. */
    method DetectorLine(operatorLines: seq<string>, writes: CardWrites)
      requires Valid() && mode == DETECTOR_MODE && input != []
      requires DetectorEvent(input[0]) == ReconfigureRequest ==> |input| - 1 + |operatorLines| >= 3
      modifies this
      ensures Valid()
      ensures DetectorLineHandled(operatorLines, writes)
    {
      kaonashiCount := 0;
      var line := ReadLine();
      DetectorRespond(line, operatorLines, writes);
    }

    /** `case 1` of `loop`: with nothing waiting, nothing happens. */
    method DetectorPass(operatorLines: seq<string>, writes: CardWrites)
      requires Valid() && mode == DETECTOR_MODE
      requires input != [] && DetectorEvent(input[0]) == ReconfigureRequest ==> |input| - 1 + |operatorLines| >= 3
      modifies this
      ensures Valid()
      ensures old(input) == [] ==> unchanged(this)
      ensures old(input) != [] ==> DetectorLineHandled(operatorLines, writes)
    {
      if |input| > 0 {
        DetectorLine(operatorLines, writes);
      }
    }

    /**
     * An intercom pass with a line waiting: the counter is reset, the line
     * consumed untrimmed and, when it names a visitor, that visitor announced.
     */
    twostate predicate IntercomLineHandled()
      requires old(input) != []
      reads this
    {
      && kaonashiCount == 0 && input == old(input)[1..] && SettingsKept()
      && trace == old(trace) + IntercomEffects(IntercomEvent(old(input)[0]), token)
    }

    /**
     * An intercom pass with nothing waiting: the counter moves on, and the
     * line read with a timeout (`lateLine`, "" when none comes) reconfigures
     * only when it is exactly `config`.
     */
    twostate predicate IntercomIdleHandled(lateLine: string, operatorLines: seq<string>, writes: CardWrites)
      reads this
    {
      && kaonashiCount == NextIdleCount(old(kaonashiCount))
      && (lateLine != CONFIG_COMMAND ==> input == old(input) && SettingsKept() && trace == old(trace))
      && (lateLine == CONFIG_COMMAND && |old(input)| + |operatorLines| >= 3 ==>
            IntercomReconfigured(old(input) + operatorLines, writes))
    }

    /** What the intercom does with the line it has read: announce the visitor it names, if any. */
    method IntercomRespond(data: string)
      modifies this`trace
      ensures trace == old(trace) + IntercomEffects(IntercomEvent(data), token)
    {
      if Contains(data, NAME_MARKER) {
        if Contains(data, FaceTag(2)) {
          SendMessage(Arrived(2));
        } else if Contains(data, FaceTag(3)) {
          SendMessage(Arrived(3));
        } else if Contains(data, FaceTag(4)) {
          SendMessage(Arrived(4));
        } else if Contains(data, FaceTag(5)) {
          SendMessage(Arrived(5));
        }
      }
    }

    /** The first arm of `case 2`. */
    method IntercomLine()
      requires Valid() && mode == INTERCOM_MODE && input != []
      modifies this`kaonashiCount, this`input, this`trace
      ensures Valid()
      ensures IntercomLineHandled()
    {
      kaonashiCount := 0;
      var data := ReadLine();
      IntercomRespond(data);
    }

    /** The second arm of `case 2`, reached when nothing is waiting. */
    method IntercomIdle(lateLine: string, operatorLines: seq<string>, writes: CardWrites)
      requires Valid() && mode == INTERCOM_MODE
      requires lateLine == CONFIG_COMMAND ==> |input| + |operatorLines| >= 3
      modifies this
      ensures Valid()
      ensures IntercomIdleHandled(lateLine, operatorLines, writes)
    {
      var data := lateLine;
      if kaonashiCount == IDLE_LIMIT {
        kaonashiCount := 0;
      } else {
        kaonashiCount := kaonashiCount + 1;
      }
      if data == CONFIG_COMMAND {
        // each read blocks until a line is there: the waiting ones come first
        ReconfigureFromIntercom(input + operatorLines, writes);
      }
    }

    /** `case 2` of `loop`. */
    method IntercomPass(lateLine: string, operatorLines: seq<string>, writes: CardWrites)
      requires Valid() && mode == INTERCOM_MODE
      requires input == [] && lateLine == CONFIG_COMMAND ==> |operatorLines| >= 3
      modifies this
      ensures Valid()
      ensures old(input) != [] ==> IntercomLineHandled()
      ensures old(input) == [] ==> IntercomIdleHandled(lateLine, operatorLines, writes)
    {
      if |input| > 0 {
        IntercomLine();
      } else {
        IntercomIdle(lateLine, operatorLines, writes);
      }
    }

    /**
     * One pass of `loop`: the arm for the current mode; any mode other than
     * 1 and 2 (a card without a usable mode file) changes nothing. The
     * requires says only that a reconfiguration this pass starts gets the
     * three lines it blocks for; `writes` is how its card writes go.
     */
    method LoopStep(lateLine: string, operatorLines: seq<string>, writes: CardWrites)
      requires Valid()
      requires mode == DETECTOR_MODE && input != [] && DetectorEvent(input[0]) == ReconfigureRequest ==>
        |input| - 1 + |operatorLines| >= 3
      requires mode == INTERCOM_MODE && input == [] && lateLine == CONFIG_COMMAND ==> |operatorLines| >= 3
      modifies this
      ensures Valid()
      ensures token == old(token)
      ensures old(mode) == INTERCOM_MODE ==> mode == INTERCOM_MODE
      ensures LoopBranch(old(mode)) == DetectorBranch && old(input) == [] ==> unchanged(this)
      ensures LoopBranch(old(mode)) == DetectorBranch && old(input) != [] ==> DetectorLineHandled(operatorLines, writes)
      ensures LoopBranch(old(mode)) == IntercomBranch && old(input) != [] ==> IntercomLineHandled()
      ensures LoopBranch(old(mode)) == IntercomBranch && old(input) == [] ==> IntercomIdleHandled(lateLine, operatorLines, writes)
      ensures LoopBranch(old(mode)) == ErrorBranch ==> unchanged(this)
    {
      if mode == DETECTOR_MODE {
        DetectorPass(operatorLines, writes);
      } else if mode == INTERCOM_MODE {
        IntercomPass(lateLine, operatorLines, writes);
      }
    }
  }
}
