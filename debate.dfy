/**
 * The debate arena page (src/pages/Debate.jsx): a three-phase game
 * (setup, debating, analysis), a 60-second answer countdown, the turn
 * exchange with the server, and the "Replay Audio" choice of message.
 * Server responses are arguments; `None` stands for a request that failed.
 * Speech synthesis is reduced to a flag and a ghost log of what was spoken.
 */
module Debate {
  import opened Js

  /** The value of `gameState`. */
  datatype Phase = Setup | Debating | Analysis

  datatype Role = Ai | User

  /** A transcript entry `{ role, content }`. */
  datatype Message = Message(role: Role, content: string)

  /** What `/api/debate/start` returns. */
  datatype StartResponse = StartResponse(sessionId: string, topic: string, openingStatement: string)

  /** What `/api/debate/turn` returns; the feedback object is kept opaque. */
  datatype TurnResponse = TurnResponse(reply: string, feedback: string)

  /** The length of one answer turn, in seconds. */
  const TurnSeconds: nat := 60

  /**
   * One run of the countdown effect followed by one interval firing: an
   * active timer with time left loses one second; a timer at zero is switched
   * off; otherwise nothing happens.
   */
  function TickRule(timeLeft: nat, active: bool): (r: (nat, bool))
    ensures r.0 <= timeLeft
    ensures active && timeLeft > 0 ==> r == (timeLeft - 1, true)
    ensures timeLeft == 0 ==> r == (0, false)
    ensures !active ==> r == (timeLeft, false)
  {
    if active && timeLeft > 0 then (timeLeft - 1, true)
    else if timeLeft == 0 then (0, false)
    else (timeLeft, active)
  }

  /** The timer after `k` ticks. */
  function Ticks(k: nat, timeLeft: nat, active: bool): (r: (nat, bool))
    ensures r.0 <= timeLeft && timeLeft <= r.0 + k
    ensures r.1 ==> active
    ensures !active ==> r.0 == timeLeft
  {
    if k == 0 then (timeLeft, active)
    else
      var next := TickRule(timeLeft, active);
      Ticks(k - 1, next.0, next.1)
  }

  /** An active timer counts down one second per tick and is still running after `k <= t` ticks. */
  lemma {:induction false} CountsDown(k: nat, t: nat)
    requires k <= t
    ensures Ticks(k, t, true) == (t - k, true)
  {
    if k > 0 {
      CountsDown(k - 1, t - 1);
    }
  }

  /** A timer stopped at zero stays stopped at zero. */
  lemma {:induction false} StoppedAtZero(k: nat)
    ensures Ticks(k, 0, false) == (0, false)
  {
    if k > 0 {
      StoppedAtZero(k - 1);
    }
  }

  /** A full turn: after `t` ticks the clock reads 0, one more switches it off, and it stays off. */
  lemma TurnExpires(t: nat, extra: nat)
    ensures Ticks(t, t, true) == (0, true)
    ensures Ticks(t + 1 + extra, t, true) == (0, false)
  {
    CountsDown(t, t);
    TicksSplit(t, 1 + extra, t, true);
    StoppedAtZero(extra);
  }

  /** Ticking `a` then `b` times is ticking `a + b` times. */
  lemma {:induction false} TicksSplit(a: nat, b: nat, timeLeft: nat, active: bool)
    ensures Ticks(a + b, timeLeft, active) == Ticks(b, Ticks(a, timeLeft, active).0, Ticks(a, timeLeft, active).1)
  {
    if a > 0 {
      var next := TickRule(timeLeft, active);
      TicksSplit(a - 1, b, next.0, next.1);
    }
  }

  /** Message `i` is from the AI. */
  predicate IsAiAt(ms: seq<Message>, i: int)
  {
    0 <= i < |ms| && ms[i].role == Ai
  }

  /** The text of the last `ai` message: `messages.slice().reverse().find(m => m.role === 'ai')`. */
  function LastAiContent(ms: seq<Message>): (r: Option<string>)
    ensures r.None? <==> forall i :: !IsAiAt(ms, i)
    ensures r.Some? ==> exists i :: IsAiAt(ms, i) && ms[i].content == r.value && forall j :: i < j ==> !IsAiAt(ms, j)
  {
    if ms == [] then None
    else if IsAiAt(ms, |ms| - 1) then Some(ms[|ms| - 1].content)
    else
      var init := ms[..|ms| - 1];
      assert forall i :: IsAiAt(ms, i) <==> IsAiAt(init, i) by {
        forall i ensures IsAiAt(ms, i) <==> IsAiAt(init, i) {
          if 0 <= i < |init| { assert init[i] == ms[i]; }
        }
      }
      LastAiContent(init)
  }

  /** The decimal digit for `d`. */
  function Digit(d: nat): (c: char)
    requires d < 10
    ensures '0' <= c <= '9'
  {
    ('0' as int + d) as char
  }

  /** The value of a decimal digit character. */
  function DigitValue(c: char): (d: nat)
    requires '0' <= c <= '9'
    ensures d < 10 && Digit(d) == c
    ensures forall e :: 0 <= e < 10 && Digit(e) == c ==> d == e
  {
    (c as int - '0' as int) as nat
  }

  /** `n.toString()`: decimal digits, no leading zero. */
  function NatToString(n: nat): (s: string)
    ensures 1 <= |s|
    ensures forall i :: 0 <= i < |s| ==> '0' <= s[i] <= '9'
    ensures s[0] == '0' ==> n == 0
    ensures n < 10 <==> |s| == 1
    ensures 10 <= n < 100 <==> |s| == 2
  {
    if n < 10 then [Digit(n)] else NatToString(n / 10) + [Digit(n % 10)]
  }

  /** The number a string of decimal digits denotes. */
  function DigitsValue(s: string): nat
    requires forall i :: 0 <= i < |s| ==> '0' <= s[i] <= '9'
  {
    if s == [] then 0 else 10 * DigitsValue(s[..|s| - 1]) + DigitValue(s[|s| - 1])
  }

  /** Reading back the printed number gives the number. */
  lemma {:induction false} NatToStringRoundTrip(n: nat)
    ensures DigitsValue(NatToString(n)) == n
  {
    var s := NatToString(n);
    if n >= 10 {
      NatToStringRoundTrip(n / 10);
      assert s[..|s| - 1] == NatToString(n / 10);
    }
  }

  /** `s.padStart(2, '0')`. */
  function PadStart2(s: string): (r: string)
    ensures |r| == if |s| < 2 then 2 else |s|
    ensures r[|r| - |s|..] == s
    ensures forall i :: 0 <= i < |r| - |s| ==> r[i] == '0'
  {
    if |s| >= 2 then s else if |s| == 1 then "0" + s else "00"
  }

  /** Leading zeros do not change the number. */
  lemma {:induction false} LeadingZero(s: string)
    requires forall i :: 0 <= i < |s| ==> '0' <= s[i] <= '9'
    ensures DigitsValue("0" + s) == DigitsValue(s)
  {
    if s != [] {
      var z := "0" + s;
      assert z[..|z| - 1] == "0" + s[..|s| - 1];
      LeadingZero(s[..|s| - 1]);
    }
  }

  /** The clock text `00:SS`. */
  function TimerLabel(timeLeft: nat): (l: string)
    ensures |l| >= 5 && l[..3] == "00:"
    ensures forall i :: 3 <= i < |l| ==> '0' <= l[i] <= '9'
  {
    "00:" + PadStart2(NatToString(timeLeft))
  }

  /** Whatever the time left, the digits after `00:` read back as it. */
  lemma TimerLabelReadsBack(timeLeft: nat)
    ensures DigitsValue(TimerLabel(timeLeft)[3..]) == timeLeft
  {
    var s := NatToString(timeLeft);
    var p := PadStart2(s);
    assert TimerLabel(timeLeft)[3..] == p;
    NatToStringRoundTrip(timeLeft);
    if |s| < 2 {
      assert p == "0" + s;
      LeadingZero(s);
    }
  }

  /** Below 100 seconds the label is five characters: the tens digit, then the units digit. */
  lemma TimerLabelShape(timeLeft: nat)
    requires timeLeft < 100
    ensures |TimerLabel(timeLeft)| == 5
    ensures TimerLabel(timeLeft)[3] == Digit(timeLeft / 10) && TimerLabel(timeLeft)[4] == Digit(timeLeft % 10)
  {
    var s := NatToString(timeLeft);
    assert TimerLabel(timeLeft)[3..] == PadStart2(s);
    if timeLeft >= 10 {
      assert s == NatToString(timeLeft / 10) + [Digit(timeLeft % 10)];
    }
  }

  /** The clock is drawn in red below ten seconds. */
  predicate TimerUrgent(timeLeft: nat)
    ensures TimerUrgent(timeLeft) <==> TimerLabel(timeLeft)[3] == '0'
  {
    var s := NatToString(timeLeft);
    assert TimerLabel(timeLeft)[3..] == PadStart2(s);
    assert timeLeft >= 10 ==> PadStart2(s) == s;
    timeLeft < 10
  }

  /** During a full turn the clock turns red after its fifty-first tick and stays red. */
  lemma UrgentInLastTenSeconds(k: nat)
    requires k <= TurnSeconds
    ensures TimerUrgent(Ticks(k, TurnSeconds, true).0) <==> k > 50
  {
    CountsDown(k, TurnSeconds);
  }

  /** The page's state. */
  class DebatePage {
    var gameState: Phase
    var topic: string
    var messages: seq<Message>
    var sessionId: Option<string>
    var turnFeedback: Option<string>
    var finalStats: Option<string>
    var timeLeft: nat
    var timerActive: bool
    var input: string
    var isSpeaking: bool
    /** `'speechSynthesis' in window`. */
    const speechAvailable: bool
    /** Every text handed to the speech synthesiser, in order. */
    ghost var spoken: seq<string>

    /** The clock never shows more than a full turn. */
    ghost predicate ClockInRange()
      reads this
    {
      timeLeft <= TurnSeconds
    }

    constructor(speechAvailable: bool)
      ensures this.speechAvailable == speechAvailable
      ensures gameState == Setup && topic == "" && messages == [] && sessionId.None?
      ensures turnFeedback.None? && finalStats.None?
      ensures timeLeft == TurnSeconds && !timerActive && input == "" && !isSpeaking && spoken == []
      ensures ClockInRange()
    {
      this.speechAvailable := speechAvailable;
      gameState, topic, messages, sessionId := Setup, "", [], None;
      turnFeedback, finalStats := None, None;
      timeLeft, timerActive, input, isSpeaking := TurnSeconds, false, "", false;
      spoken := [];
    }

    /** `speak`: when speech is available, start speaking `text`. */
    method Speak(text: string)
      modifies this`isSpeaking, this`spoken
      ensures speechAvailable ==> isSpeaking && spoken == old(spoken) + [text]
      ensures !speechAvailable ==> isSpeaking == old(isSpeaking) && spoken == old(spoken)
    {
      if !speechAvailable {
        return;
      }
      isSpeaking := true;
      spoken := spoken + [text];
    }

    /** The utterance's end or error callback. */
    method SpeechEnded()
      modifies this`isSpeaking
      ensures !isSpeaking
    {
      isSpeaking := false;
    }

    /** One step of the countdown (see `TickRule`). */
    method Tick()
      modifies this`timeLeft, this`timerActive
      ensures (timeLeft, timerActive) == TickRule(old(timeLeft), old(timerActive))
      ensures old(ClockInRange()) ==> ClockInRange()
    {
      if timerActive && timeLeft > 0 {
        timeLeft := timeLeft - 1;
      } else if timeLeft == 0 {
        timerActive := false;
      }
    }

    /** `startUserTurn`: empty input, a full clock, timer running. */
    method StartUserTurn()
      modifies this`input, this`timeLeft, this`timerActive
      ensures input == "" && timeLeft == TurnSeconds && timerActive
      ensures ClockInRange()
    {
      input := "";
      timeLeft := TurnSeconds;
      timerActive := true;
    }

    /**
     * `startDebate`, offered on the setup screen: on success the session, the
     * topic and the opening statement are taken over, the statement is spoken,
     * the game enters the debate and the user's turn starts; on failure
     * nothing changes.
     */
    method StartDebate(response: Option<StartResponse>)
      requires gameState == Setup
      modifies this`sessionId, this`topic, this`messages, this`isSpeaking, this`spoken, this`gameState,
               this`input, this`timeLeft, this`timerActive
      ensures gameState == if response.Some? then Debating else Setup
      ensures response.Some? ==>
                && sessionId == Some(response.value.sessionId)
                && topic == response.value.topic
                && messages == [Message(Ai, response.value.openingStatement)]
                && input == "" && timeLeft == TurnSeconds && timerActive
                && (speechAvailable ==> isSpeaking && spoken == old(spoken) + [response.value.openingStatement])
                && (!speechAvailable ==> isSpeaking == old(isSpeaking) && spoken == old(spoken))
      ensures response.None? ==>
                && sessionId == old(sessionId) && topic == old(topic) && messages == old(messages)
                && input == old(input) && timeLeft == old(timeLeft) && timerActive == old(timerActive)
                && isSpeaking == old(isSpeaking) && spoken == old(spoken)
      ensures turnFeedback == old(turnFeedback) && finalStats == old(finalStats)
      ensures old(ClockInRange()) ==> ClockInRange()
    {
      if response.None? {
        return;
      }
      var res := response.value;
      sessionId := Some(res.sessionId);
      topic := res.topic;
      messages := [Message(Ai, res.openingStatement)];
      Speak(res.openingStatement);
      gameState := Debating;
      StartUserTurn();
    }

    /**
     * `sendTurn`: blank input does nothing. Otherwise the timer stops and the
     * user's message is shown at once; on success the feedback is kept, the
     * reply follows and is spoken, and a new turn starts; on failure the user's
     * message stays, the input is kept and the timer stays off.
     */
    method SendTurn(response: Option<TurnResponse>)
      modifies this`timerActive, this`messages, this`turnFeedback, this`input, this`timeLeft,
               this`isSpeaking, this`spoken
      ensures IsBlank(old(input)) ==>
                && messages == old(messages) && timerActive == old(timerActive) && input == old(input)
                && timeLeft == old(timeLeft) && turnFeedback == old(turnFeedback)
                && isSpeaking == old(isSpeaking) && spoken == old(spoken)
      ensures !IsBlank(old(input)) && response.Some? ==>
                && messages == old(messages) + [Message(User, old(input)), Message(Ai, response.value.reply)]
                && turnFeedback == Some(response.value.feedback)
                && input == "" && timeLeft == TurnSeconds && timerActive
                && (speechAvailable ==> isSpeaking && spoken == old(spoken) + [response.value.reply])
                && (!speechAvailable ==> isSpeaking == old(isSpeaking) && spoken == old(spoken))
      ensures !IsBlank(old(input)) && response.None? ==>
                && messages == old(messages) + [Message(User, old(input))]
                && !timerActive && input == old(input) && timeLeft == old(timeLeft)
                && turnFeedback == old(turnFeedback) && isSpeaking == old(isSpeaking) && spoken == old(spoken)
      ensures old(ClockInRange()) ==> ClockInRange()
    {
      var blank := TrimsToEmpty(input);
      if blank {
        return;
      }
      timerActive := false;
      var newMsgs := messages + [Message(User, input)];
      messages := newMsgs;
      if response.None? {
        return;
      }
      var res := response.value;
      turnFeedback := Some(res.feedback);
      messages := newMsgs + [Message(Ai, res.reply)];
      Speak(res.reply);
      StartUserTurn();
    }

    /**
     * `endDebate` as written, offered during the debate. Its first step,
     * `window.speechSynthesis.cancel()`, has no availability guard and comes
     * before the `try`: without speech synthesis it throws and nothing after
     * it runs, so the game never reaches the analysis. Otherwise, on success
     * the analysis is kept and shown; on failure the debate goes on unchanged.
     */
    method EndDebateAsWritten(response: Option<string>)
      requires gameState == Debating
      modifies this`finalStats, this`gameState
      ensures !speechAvailable ==> gameState == Debating && finalStats == old(finalStats)
      ensures speechAvailable ==>
                && gameState == (if response.Some? then Analysis else Debating)
                && finalStats == (if response.Some? then response else old(finalStats))
    {
      if !speechAvailable {
        return;
      }
      if response.None? {
        return;
      }
      finalStats := response;
      gameState := Analysis;
    }

    /**
     * `endDebate` with the cancel guarded like `speak`'s: on success the
     * analysis is kept and shown, whether or not speech is available; on
     * failure the debate goes on unchanged.
     */
    method EndDebate(response: Option<string>)
      requires gameState == Debating
      modifies this`finalStats, this`gameState
      ensures gameState == if response.Some? then Analysis else Debating
      ensures finalStats == if response.Some? then response else old(finalStats)
      ensures gameState == Analysis ==> finalStats.Some?
    {
      if response.None? {
        return;
      }
      finalStats := response;
      gameState := Analysis;
    }

    /** "Start New Debate" on the analysis screen: back to setup; nothing else is reset. */
    method NewDebate()
      requires gameState == Analysis
      modifies this`gameState
      ensures gameState == Setup
    {
      gameState := Setup;
    }

    /**
     * `toggleSpeech`: while speaking, stop; otherwise replay the last `ai`
     * message, if there is one. Returns the replayed text.
     */
    method ToggleSpeech() returns (replayed: Option<string>)
      modifies this`isSpeaking, this`spoken
      ensures old(isSpeaking) ==> replayed.None? && !isSpeaking && spoken == old(spoken)
      ensures !old(isSpeaking) ==> replayed == LastAiContent(messages)
      ensures !old(isSpeaking) && replayed.Some? && speechAvailable ==>
                isSpeaking && spoken == old(spoken) + [replayed.value]
      ensures !old(isSpeaking) && (replayed.None? || !speechAvailable) ==>
                isSpeaking == old(isSpeaking) && spoken == old(spoken)
    {
      if isSpeaking {
        isSpeaking := false;
        return None;
      }
      replayed := LastAiContent(messages);
      if replayed.Some? {
        Speak(replayed.value);
      }
    }
  }

  /**
   * Without speech synthesis, ending the debate as written leaves the game in
   * the debate even though the server answered.
   */
  method SpeechlessEndScenario() returns (page: DebatePage)
    ensures !page.speechAvailable && page.gameState == Debating && page.finalStats == None
  {
    page := new DebatePage(false);
    page.StartDebate(Some(StartResponse("s1", "Remote work", "Remote work helps.")));
    page.EndDebateAsWritten(Some("analysis"));
  }

  /**
   * One full round with the corrected `endDebate`: start, one exchange, end,
   * and "Start New Debate" go setup, debating, analysis, setup, with or
   * without speech synthesis, and the transcript and analysis are kept.
   */
  method FullRoundScenario(speechAvailable: bool) returns (page: DebatePage)
    ensures page.gameState == Setup && page.finalStats == Some("analysis")
    ensures page.messages == [Message(Ai, "Remote work helps."), Message(User, "It isolates people."),
                              Message(Ai, "Not with good tools.")]
    ensures page.timeLeft == TurnSeconds && page.timerActive && page.input == ""
  {
    page := new DebatePage(speechAvailable);
    assert page.gameState == Setup;
    page.StartDebate(Some(StartResponse("s1", "Remote work", "Remote work helps.")));
    assert page.gameState == Debating;
    page.input := "It isolates people.";
    assert !IsJsWhitespace(page.input[0]);
    page.SendTurn(Some(TurnResponse("Not with good tools.", "clear")));
    page.EndDebate(Some("analysis"));
    assert page.gameState == Analysis;
    page.NewDebate();
  }
}
