/**
 * The local state logic of the mock-interview page (src/pages/Interview.jsx):
 * turning a stored session into the transcript shown on screen, the score
 * statistics, and the transcript and statistics updates of an answer.
 * Server responses are arguments; `None` stands for a request that failed.
 */
module Interview {
  import opened Js

  /** An evaluation returned by the server (only the fields the page computes with). */
  datatype Evaluation = Evaluation(score: Option<int>, nextQuestion: Option<string>)

  /** `score || 0`. */
  function ScoreOrZero(e: Evaluation): int
  {
    if e.score.Some? then e.score.value else 0
  }

  /** `nextQuestion` is truthy: present and not the empty string. */
  predicate HasNextQuestion(e: Evaluation)
  {
    e.nextQuestion.Some? && e.nextQuestion.value != ""
  }

  /** A message of a stored session, as the server sends it. */
  datatype BackendMessage = BackendMessage(role: string, content: string, evaluation: Option<Evaluation>)

  /** A transcript entry: `{type, text}`, or `{type: 'evaluation', evaluation}`. */
  datatype UiMessage = Text(kind: string, text: string) | EvaluationEntry(evaluation: Evaluation)

  /** The entries one backend message turns into. */
  function Entries(m: BackendMessage): seq<UiMessage>
  {
    [Text(m.role, m.content)] + if m.evaluation.Some? then [EvaluationEntry(m.evaluation.value)] else []
  }

  /** The number of backend messages that carry an evaluation. */
  function CountEvaluated(ms: seq<BackendMessage>): nat
  {
    if ms == [] then 0 else (if ms[0].evaluation.Some? then 1 else 0) + CountEvaluated(ms[1..])
  }

  /** The `flatMap` of `loadSession`. */
  function Flatten(ms: seq<BackendMessage>): (r: seq<UiMessage>)
    ensures |r| == |ms| + CountEvaluated(ms)
  {
    if ms == [] then [] else Entries(ms[0]) + Flatten(ms[1..])
  }

  /** Flattening works piecewise. */
  lemma {:induction false} FlattenAppend(a: seq<BackendMessage>, b: seq<BackendMessage>)
    ensures Flatten(a + b) == Flatten(a) + Flatten(b)
  {
    if a == [] {
      assert a + b == b;
    } else {
      assert (a + b)[0] == a[0];
      assert (a + b)[1..] == a[1..] + b;
      FlattenAppend(a[1..], b);
      assert Entries(a[0]) + (Flatten(a[1..]) + Flatten(b)) == (Entries(a[0]) + Flatten(a[1..])) + Flatten(b);
    }
  }

  /** The first backend message becomes the first entry, followed by its evaluation when it has one. */
  lemma FlattenFirst(ms: seq<BackendMessage>)
    requires ms != []
    ensures var r := Flatten(ms);
            && r[0] == Text(ms[0].role, ms[0].content)
            && (ms[0].evaluation.Some? ==> 1 < |r| && r[1] == EvaluationEntry(ms[0].evaluation.value))
            && (ms[0].evaluation.None? ==> 1 == |r| || r[1].Text?)
  {
    var head, tail := Entries(ms[0]), Flatten(ms[1..]);
    assert Flatten(ms) == head + tail;
    if ms[0].evaluation.None? && |ms| > 1 {
      assert tail == Entries(ms[1]) + Flatten(ms[2..]) by {
        assert ms[1..][0] == ms[1] && ms[1..][1..] == ms[2..];
      }
    }
  }

  /**
   * Flattening keeps order: backend message `i` becomes the text entry at
   * position `i` plus the number of evaluated messages before it, and the
   * entry right after it is its evaluation exactly when it has one.
   */
  lemma FlattenAt(ms: seq<BackendMessage>, i: nat)
    requires i < |ms|
    ensures var r, p := Flatten(ms), i + CountEvaluated(ms[..i]);
            && p < |r|
            && r[p] == Text(ms[i].role, ms[i].content)
            && (ms[i].evaluation.Some? ==> p + 1 < |r| && r[p + 1] == EvaluationEntry(ms[i].evaluation.value))
            && (ms[i].evaluation.None? ==> p + 1 == |r| || r[p + 1].Text?)
  {
    var pre, post := ms[..i], ms[i..];
    assert ms == pre + post;
    FlattenAppend(pre, post);
    FlattenFirst(post);
    assert post[0] == ms[i];
  }

  /** The evaluations of a transcript in order: `filter(m => m.evaluation)`. */
  function Evaluations(ui: seq<UiMessage>): seq<Evaluation>
  {
    if ui == [] then []
    else (if ui[0].EvaluationEntry? then [ui[0].evaluation] else []) + Evaluations(ui[1..])
  }

  /** The `reduce` of `loadSession`: the sum of `score || 0`. */
  function SumScores(es: seq<Evaluation>): int
  {
    if es == [] then 0 else ScoreOrZero(es[0]) + SumScores(es[1..])
  }

  /** The score statistics. */
  datatype Stats = Stats(questions: nat, totalScore: int)

  /** The statistics `loadSession` recomputes from a transcript. */
  function RecomputeStats(ui: seq<UiMessage>): (r: Stats)
    ensures r.questions <= |ui|
    ensures r.questions == 0 ==> r.totalScore == 0
  {
    var es := Evaluations(ui);
    EvaluationsBound(ui);
    Stats(|es|, SumScores(es))
  }

  /** A transcript has at most as many evaluations as entries. */
  lemma {:induction false} EvaluationsBound(ui: seq<UiMessage>)
    ensures |Evaluations(ui)| <= |ui|
  {
    if ui != [] {
      EvaluationsBound(ui[1..]);
    }
  }

  lemma {:induction false} EvaluationsAppend(a: seq<UiMessage>, b: seq<UiMessage>)
    ensures Evaluations(a + b) == Evaluations(a) + Evaluations(b)
  {
    if a == [] {
      assert a + b == b;
    } else {
      assert (a + b)[0] == a[0];
      assert (a + b)[1..] == a[1..] + b;
      EvaluationsAppend(a[1..], b);
    }
  }

  lemma {:induction false} SumScoresAppend(a: seq<Evaluation>, b: seq<Evaluation>)
    ensures SumScores(a + b) == SumScores(a) + SumScores(b)
  {
    if a == [] {
      assert a + b == b;
    } else {
      assert (a + b)[0] == a[0];
      assert (a + b)[1..] == a[1..] + b;
      SumScoresAppend(a[1..], b);
    }
  }

  /** The statistics of a concatenation add up. */
  lemma RecomputeAppend(a: seq<UiMessage>, b: seq<UiMessage>)
    ensures RecomputeStats(a + b).questions == RecomputeStats(a).questions + RecomputeStats(b).questions
    ensures RecomputeStats(a + b).totalScore == RecomputeStats(a).totalScore + RecomputeStats(b).totalScore
  {
    EvaluationsAppend(a, b);
    SumScoresAppend(Evaluations(a), Evaluations(b));
  }

  /** Text entries carry no evaluation. */
  lemma {:induction false} TextsHaveNoEvaluations(t: seq<UiMessage>)
    requires forall i :: 0 <= i < |t| ==> t[i].Text?
    ensures Evaluations(t) == []
  {
    if t != [] {
      TextsHaveNoEvaluations(t[1..]);
    }
  }

  /** The statistics of a single evaluation entry. */
  lemma OneEvaluation(e: Evaluation)
    ensures RecomputeStats([EvaluationEntry(e)]) == Stats(1, ScoreOrZero(e))
  {
    var t := [EvaluationEntry(e)];
    assert t[1..] == [];
    assert Evaluations(t) == [e];
    assert [e][1..] == [];
    assert SumScores([e]) == ScoreOrZero(e) + SumScores([]);
  }

  /** The sum of `score || 0` over the evaluated backend messages. */
  function BackendScore(ms: seq<BackendMessage>): int
  {
    if ms == [] then 0
    else (if ms[0].evaluation.Some? then ScoreOrZero(ms[0].evaluation.value) else 0) + BackendScore(ms[1..])
  }

  /**
   * The recomputed statistics of a loaded session: one question per evaluated
   * message, and the sum of their scores with a missing score counted as 0.
   */
  lemma {:induction false} LoadedStats(ms: seq<BackendMessage>)
    ensures RecomputeStats(Flatten(ms)) == Stats(CountEvaluated(ms), BackendScore(ms))
  {
    if ms != [] {
      var m := ms[0];
      LoadedStats(ms[1..]);
      var text := [Text(m.role, m.content)];
      TextsHaveNoEvaluations(text);
      if m.evaluation.Some? {
        OneEvaluation(m.evaluation.value);
        RecomputeAppend(text, [EvaluationEntry(m.evaluation.value)]);
      } else {
        assert Entries(m) == text;
      }
      RecomputeAppend(Entries(m), Flatten(ms[1..]));
    }
  }

  /** Entry `i` is an `ai` text. */
  predicate IsAiAt(ms: seq<UiMessage>, i: int)
  {
    0 <= i < |ms| && ms[i].Text? && ms[i].kind == "ai"
  }

  /** `messages.filter(m => m.type === 'ai').pop()?.text`: the text of the last `ai` entry. */
  function LastAiText(ms: seq<UiMessage>): (r: Option<string>)
    ensures r.None? <==> forall i :: !IsAiAt(ms, i)
    ensures r.Some? ==> exists i :: IsAiAt(ms, i) && ms[i].text == r.value && forall j :: i < j ==> !IsAiAt(ms, j)
  {
    if ms == [] then None
    else if IsAiAt(ms, |ms| - 1) then Some(ms[|ms| - 1].text)
    else
      var init := ms[..|ms| - 1];
      var r := LastAiText(init);
      assert forall i :: IsAiAt(ms, i) <==> IsAiAt(init, i) by {
        forall i ensures IsAiAt(ms, i) <==> IsAiAt(init, i) {
          if 0 <= i < |init| { assert init[i] == ms[i]; }
        }
      }
      r
  }

  /**
   * The question sent with an answer: `lastQuestion || 'General Context'`,
   * the last `ai` text when it is truthy and `General Context` otherwise. It is never empty.
   */
  function QuestionFor(ms: seq<UiMessage>): (q: string)
    ensures q != ""
    ensures var last := LastAiText(ms);
            (last.Some? && last.value != "" ==> q == last.value)
            && (last.None? || last.value == "" ==> q == "General Context")
    ensures q == "General Context" || exists i :: IsAiAt(ms, i) && ms[i].text == q && forall j :: i < j ==> !IsAiAt(ms, j)
  {
    var last := LastAiText(ms);
    if last.Some? && last.value != "" then last.value else "General Context"
  }

  /** The three colours of `getScoreColor`. */
  datatype Tone = Red | Yellow | Green

  /** `getScoreColor`; an absent score compares false with both thresholds. */
  function ScoreTone(score: Option<int>): (t: Tone)
    ensures t == Green <==> score.Some? && score.value >= 8
    ensures t == Yellow <==> score.Some? && 5 <= score.value < 8
    ensures t == Red <==> score.None? || score.value < 5
  {
    if score.Some? && score.value >= 8 then Green
    else if score.Some? && score.value >= 5 then Yellow
    else Red
  }

  /** The Tailwind class `getScoreColor` returns. */
  function ToneClass(t: Tone): (c: string)
    ensures c == "text-green-400" <==> t == Green
    ensures c == "text-yellow-400" <==> t == Yellow
    ensures c == "text-red-400" <==> t == Red
  {
    match t
    case Green => "text-green-400"
    case Yellow => "text-yellow-400"
    case Red => "text-red-400"
  }

  function ToneRank(t: Tone): nat
  {
    match t
    case Red => 0
    case Yellow => 1
    case Green => 2
  }

  /** A higher score never gets a worse colour. */
  lemma ScoreToneMonotone(a: int, b: int)
    requires a <= b
    ensures ToneRank(ScoreTone(Some(a))) <= ToneRank(ScoreTone(Some(b)))
  {
  }

  /** A session as listed in the history sidebar. */
  datatype Session = Session(id: string)

  /** The server's answer to `GET /api/interview/session/:id`. */
  datatype SessionData = SessionData(id: string, messages: seq<BackendMessage>)

  /** The body of `POST /api/interview/evaluate`. */
  datatype EvaluateRequest = EvaluateRequest(question: string, answer: string, sessionId: Option<string>, length: string)

  const ActiveSessionKey := "activeInterviewSession"
  const EvaluateErrorText := "Error evaluating answer."

  /** The greeting `startNewSession` puts in a fresh transcript. */
  function Greeting(withResume: bool): string
  {
    "New session started! " + (if withResume then "I have read your resume. " else "") + "Select a topic to begin."
  }

  /** The greeting opens and closes the same way and mentions the resume exactly when one was read. */
  lemma GreetingShape(withResume: bool)
    ensures var g := Greeting(withResume);
            && |g| >= 45 && g[..21] == "New session started! " && g[|g| - 24..] == "Select a topic to begin."
            && (withResume <==> OccursAt(g, "I have read your resume.", 21))
  {
    var head, tail := "New session started! ", "Select a topic to begin.";
    var middle := if withResume then "I have read your resume. " else "";
    var mention := "I have read your resume.";
    var g := head + middle + tail;
    assert |head| == 21 && |tail| == 24 && |mention| == 24;
    assert g[..21] == head;
    assert g[|g| - 24..] == tail;
    if withResume {
      assert g[21..45] == middle[..24] == mention;
    } else {
      assert g[21..45] == tail;
      assert tail[0] != mention[0];
    }
  }

  /** What follows the answer in the transcript: the evaluation and the next question, or an error notice. */
  function ReplyEntries(response: Option<Evaluation>): (r: seq<UiMessage>)
    ensures 1 <= |r| <= 2
    ensures response.None? ==> r == [Text("system", EvaluateErrorText)]
    ensures response.Some? ==>
              && r[0] == EvaluationEntry(response.value)
              && (|r| == 2 <==> HasNextQuestion(response.value))
              && (|r| == 2 ==> r[1] == Text("ai", response.value.nextQuestion.value))
  {
    match response
    case Some(e) => [EvaluationEntry(e)] + (if HasNextQuestion(e) then [Text("ai", e.nextQuestion.value)] else [])
    case None => [Text("system", EvaluateErrorText)]
  }

  /** The statistics after an answer: one more question and its score when evaluated. */
  function StatsAfter(s: Stats, response: Option<Evaluation>): (r: Stats)
    ensures r.questions == s.questions <==> response.None?
    ensures r.questions == s.questions ==> r == s
    ensures r.questions == s.questions || r.questions == s.questions + 1
  {
    match response
    case Some(e) => Stats(s.questions + 1, s.totalScore + ScoreOrZero(e))
    case None => s
  }

  /** The statistics of what follows an answer. */
  lemma ReplyStats(response: Option<Evaluation>)
    ensures RecomputeStats(ReplyEntries(response)) == StatsAfter(Stats(0, 0), response)
  {
    match response
    case Some(e) =>
      OneEvaluation(e);
      if HasNextQuestion(e) {
        var next := [Text("ai", e.nextQuestion.value)];
        TextsHaveNoEvaluations(next);
        RecomputeAppend([EvaluationEntry(e)], next);
      } else {
        assert ReplyEntries(response) == [EvaluationEntry(e)];
      }
    case None =>
      TextsHaveNoEvaluations(ReplyEntries(response));
  }

  /**
   * Appending the answer and the reply to a transcript whose statistics are
   * `s` gives the statistics `StatsAfter` computes.
   */
  lemma SendKeepsStats(t: seq<UiMessage>, answer: string, s: Stats, response: Option<Evaluation>)
    requires RecomputeStats(t) == s
    ensures RecomputeStats(t + [Text("user", answer)] + ReplyEntries(response)) == StatsAfter(s, response)
  {
    AnswerKeepsStats(t, answer);
    ReplyAddsStats(t + [Text("user", answer)], response);
  }

  /** The answer itself is a text entry and changes no statistic. */
  lemma AnswerKeepsStats(t: seq<UiMessage>, answer: string)
    ensures RecomputeStats(t + [Text("user", answer)]) == RecomputeStats(t)
  {
    var sent := [Text("user", answer)];
    TextsHaveNoEvaluations(sent);
    RecomputeAppend(t, sent);
  }

  /** The reply adds the statistics `StatsAfter` adds. */
  lemma ReplyAddsStats(t: seq<UiMessage>, response: Option<Evaluation>)
    ensures RecomputeStats(t + ReplyEntries(response)) == StatsAfter(RecomputeStats(t), response)
  {
    var reply := ReplyEntries(response);
    ReplyStats(response);
    RecomputeAppend(t, reply);
    AddStats(RecomputeStats(t), RecomputeStats(reply), RecomputeStats(t + reply), response);
  }

  /** Adding the statistics of a reply to `x` is what `StatsAfter` does to `x`. */
  lemma AddStats(x: Stats, y: Stats, z: Stats, response: Option<Evaluation>)
    requires y == StatsAfter(Stats(0, 0), response)
    requires z.questions == x.questions + y.questions && z.totalScore == x.totalScore + y.totalScore
    ensures z == StatsAfter(x, response)
  {
  }

  /** The page's state; `storage` is the browser's `localStorage` as this page uses it. */
  class InterviewPage {
    var sessions: seq<Session>
    var currentSessionId: Option<string>
    var messages: seq<UiMessage>
    var input: string
    var length: string
    var stats: Stats
    var resumeFile: Option<string>
    var showResumeModal: bool
    var storage: map<string, string>

    /** The statistics are those of the transcript on screen. */
    ghost predicate StatsMatchTranscript()
      reads this
    {
      stats == RecomputeStats(messages)
    }

    constructor(storage0: map<string, string>)
      ensures sessions == [] && currentSessionId == None && messages == [] && input == ""
      ensures length == "short" && stats == Stats(0, 0) && resumeFile == None && !showResumeModal
      ensures storage == storage0
      ensures StatsMatchTranscript()
    {
      sessions, currentSessionId, messages, input := [], None, [], "";
      length, stats, resumeFile, showResumeModal := "short", Stats(0, 0), None, false;
      storage := storage0;
    }

    /**
     * `loadSession(id)`: replace transcript and statistics by the stored
     * session's, and remember `id`. `writeFails` says the final
     * `localStorage.setItem` throws: the `catch` swallows it after the
     * transcript and statistics are already set, so only the pointer is lost.
     */
    method LoadSession(id: string, response: Option<SessionData>, writeFails: bool)
      modifies this
      ensures response.None? ==>
                && messages == old(messages) && stats == old(stats) && storage == old(storage)
                && currentSessionId == old(currentSessionId)
      ensures response.Some? ==>
                && currentSessionId == Some(response.value.id)
                && messages == Flatten(response.value.messages)
                && stats == Stats(CountEvaluated(response.value.messages), BackendScore(response.value.messages))
                && storage == if writeFails then old(storage) else old(storage)[ActiveSessionKey := id]
      ensures response.None? ==> old(StatsMatchTranscript()) ==> StatsMatchTranscript()
      ensures response.Some? ==> StatsMatchTranscript()
      ensures sessions == old(sessions) && input == old(input) && length == old(length)
      ensures resumeFile == old(resumeFile) && showResumeModal == old(showResumeModal)
    {
      if response.None? {
        return;
      }
      var data := response.value;
      currentSessionId := Some(data.id);
      var ui := Flatten(data.messages);
      messages := ui;
      var evaluations := Evaluations(ui);
      stats := Stats(|evaluations|, SumScores(evaluations));
      LoadedStats(data.messages);
      if !writeFails {
        storage := storage[ActiveSessionKey := id];
      }
    }

    /** The mount effect: reload the session whose id `localStorage` holds, if that id is truthy. */
    method ResumeSavedSession(response: Option<SessionData>, writeFails: bool)
      modifies this
      ensures ActiveSessionKey !in old(storage) || old(storage)[ActiveSessionKey] == "" || response.None? ==>
                messages == old(messages) && stats == old(stats) && storage == old(storage)
                && currentSessionId == old(currentSessionId)
      ensures ActiveSessionKey in old(storage) && old(storage)[ActiveSessionKey] != "" && response.Some? ==>
                && currentSessionId == Some(response.value.id)
                && messages == Flatten(response.value.messages)
                && stats == Stats(CountEvaluated(response.value.messages), BackendScore(response.value.messages))
                && storage == old(storage)
      ensures sessions == old(sessions) && input == old(input) && length == old(length)
      ensures resumeFile == old(resumeFile) && showResumeModal == old(showResumeModal)
      ensures old(StatsMatchTranscript()) ==> StatsMatchTranscript()
    {
      if ActiveSessionKey in storage && storage[ActiveSessionKey] != "" {
        var saved := storage[ActiveSessionKey];
        LoadSession(saved, response, writeFails);
      }
    }

    /** `startNewSession`: list the new session first and start an empty transcript with a greeting. */
    method StartNewSession(response: Option<Session>)
      modifies this
      ensures response.None? ==>
                && sessions == old(sessions) && currentSessionId == old(currentSessionId)
                && messages == old(messages) && stats == old(stats)
                && resumeFile == old(resumeFile) && showResumeModal == old(showResumeModal)
      ensures response.Some? ==>
                && sessions == [response.value] + old(sessions)
                && currentSessionId == Some(response.value.id)
                && messages == [Text("ai", Greeting(old(resumeFile).Some?))]
                && stats == Stats(0, 0)
                && resumeFile == None && !showResumeModal
      ensures input == old(input) && length == old(length) && storage == old(storage)
      ensures old(StatsMatchTranscript()) ==> StatsMatchTranscript()
      ensures response.Some? ==> StatsMatchTranscript()
    {
      if response.None? {
        return;
      }
      sessions := [response.value] + sessions;
      currentSessionId := Some(response.value.id);
      messages := [Text("ai", Greeting(resumeFile.Some?))];
      stats := Stats(0, 0);
      showResumeModal := false;
      resumeFile := None;
      TextsHaveNoEvaluations(messages);
    }

    /** `getNextQuestion`: append the server's question. */
    method GetNextQuestion(response: Option<string>)
      modifies this`messages
      ensures messages == old(messages) + if response.Some? then [Text("ai", response.value)] else []
      ensures old(StatsMatchTranscript()) ==> StatsMatchTranscript()
    {
      if response.Some? {
        var asked := [Text("ai", response.value)];
        RecomputeAppend(messages, asked);
        TextsHaveNoEvaluations(asked);
        messages := messages + asked;
      }
    }

    /**
     * `handleSend`: nothing happens for a blank answer. Otherwise the answer is
     * appended; a successful evaluation appends itself and, when present, the
     * next question, and counts one more question with its score; a failed one
     * appends an error notice and leaves the statistics alone. `request` is
     * what is sent to the server.
     */
    method HandleSend(response: Option<Evaluation>) returns (request: Option<EvaluateRequest>)
      modifies this`input, this`messages, this`stats
      ensures old(StatsMatchTranscript()) ==> StatsMatchTranscript()
      ensures IsBlank(old(input)) ==>
                request == None && messages == old(messages) && stats == old(stats) && input == old(input)
      ensures !IsBlank(old(input)) ==>
                && request == Some(EvaluateRequest(QuestionFor(old(messages)), old(input),
                                                   old(currentSessionId), old(length)))
                && input == ""
                && messages == old(messages) + [Text("user", old(input))] + ReplyEntries(response)
                && stats == StatsAfter(old(stats), response)
    {
      var blank := TrimsToEmpty(input);
      if blank {
        return None;
      }
      var answer := input;
      input := "";
      request := Some(EvaluateRequest(QuestionFor(messages), answer, currentSessionId, length));
      RecordExchange(answer, response);
    }

    /** The transcript and statistics update of `handleSend` once the answer has been sent. */
    method RecordExchange(answer: string, response: Option<Evaluation>)
      modifies this`messages, this`stats
      ensures messages == old(messages) + [Text("user", answer)] + ReplyEntries(response)
      ensures stats == StatsAfter(old(stats), response)
      ensures old(StatsMatchTranscript()) ==> StatsMatchTranscript()
    {
      if StatsMatchTranscript() {
        SendKeepsStats(messages, answer, stats, response);
      }
      messages := messages + [Text("user", answer)];
      messages := messages + ReplyEntries(response);
      stats := StatsAfter(stats, response);
    }

    /** "Clear / Close Session": forget the session, its transcript, its statistics and the stored pointer. */
    method ClearSession()
      modifies this
      ensures currentSessionId == None && messages == [] && stats == Stats(0, 0)
      ensures storage == old(storage) - {ActiveSessionKey}
      ensures sessions == old(sessions) && input == old(input) && length == old(length)
      ensures resumeFile == old(resumeFile) && showResumeModal == old(showResumeModal)
      ensures StatsMatchTranscript()
    {
      currentSessionId := None;
      messages := [];
      stats := Stats(0, 0);
      storage := storage - {ActiveSessionKey};
    }
  }
}
