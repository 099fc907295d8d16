/** `VoiceChat` (pyrobbot/voice_chat.py): how a streamed answer is cut into sentences
    for text-to-speech, how transcribed questions reach the questions queue, and the
    audio block size. Queues are sequences of the items put on them; `None` is the
    end-of-answer (TTS queue) or end-of-chat (questions queue) sentinel. */
module VoiceChatModel {
  import opened Wrappers
  import opened Text
  import LiveAssistant

  /** A chunk of the streamed reply: its type ("text" or "code") and its text. */
  datatype AnswerChunk = AnswerChunk(chunkType: string, content: string)

  /** How an `answer_question` generator ends for its consumer: normally, or with the
      `RuntimeError` Python substitutes for a `StopIteration` raised inside a generator. */
  datatype AnswerOutcome = Finished | RuntimeError(message: string)

  const StopIterationInGenerator := "generator raised StopIteration"

  const SentenceEnds: set<char> := {'?', '!', '.'}

  /** The stripped chunk ends with "?", "!" or ".". */
  predicate EndsSentence(content: string) {
    var s := Strip(content);
    s != [] && s[|s| - 1] in SentenceEnds
  }

  /** The stripped sentence has a second-to-last character and it is a digit
      (when it has none, the `IndexError` is suppressed and the sentence is sent). */
  predicate DigitBeforeEnd(sentence: string) {
    var t := Strip(sentence);
    |t| >= 2 && IsDigit(t[|t| - 2])
  }

  /** Whether the sentence accumulated up to and including `content` is sent to TTS. */
  predicate Flushes(sentence: string, content: string) {
    EndsSentence(content)
    && !(Strip(content)[|Strip(content)| - 1] == '.' && DigitBeforeEnd(sentence))
  }

  /** The sentences already sent to TTS and the one being accumulated. */
  datatype Splitter = Splitter(queued: seq<string>, pending: string)

  /** The loop body of `answer_question` for one chunk, when the reply is spoken. */
  function SplitStep(st: Splitter, chunk: AnswerChunk): Splitter {
    if chunk.chunkType != "text" then st
    else
      var sentence := st.pending + chunk.content;
      if Flushes(sentence, chunk.content) then Splitter(st.queued + [sentence], "")
      else Splitter(st.queued, sentence)
  }

  /** The splitter state after the given chunks, from an empty sentence. */
  function Split(chunks: seq<AnswerChunk>): Splitter {
    if chunks == [] then Splitter([], "")
    else SplitStep(Split(chunks[..|chunks| - 1]), chunks[|chunks| - 1])
  }

  /** The contents of the "text" chunks, in order. */
  function TextContents(chunks: seq<AnswerChunk>): (r: seq<string>)
    ensures |r| <= |chunks|
  {
    if chunks == [] then []
    else
      var last := chunks[|chunks| - 1];
      TextContents(chunks[..|chunks| - 1]) + (if last.chunkType == "text" then [last.content] else [])
  }

  /** Only the "text" chunks, in order. */
  function TextChunks(chunks: seq<AnswerChunk>): (r: seq<AnswerChunk>)
    ensures forall k :: 0 <= k < |r| ==> r[k].chunkType == "text"
  {
    if chunks == [] then []
    else
      var last := chunks[|chunks| - 1];
      TextChunks(chunks[..|chunks| - 1]) + (if last.chunkType == "text" then [last] else [])
  }

  function Somes(xs: seq<string>): (r: seq<Option<string>>)
    ensures |r| == |xs| && forall k :: 0 <= k < |xs| ==> r[k] == Some(xs[k])
  {
    if xs == [] then [] else Somes(xs[..|xs| - 1]) + [Some(xs[|xs| - 1])]
  }

  /** What a consumer speaks from a queue: the texts of the non-`None` items, in order. */
  function Spoken(items: seq<Option<string>>): string {
    if items == [] then ""
    else
      Spoken(items[..|items| - 1])
      + (match items[|items| - 1] case Some(t) => t case None => "")
  }

  /** The sentences sent to TTS while the chunks stream in. */
  function FlushedSentences(chunks: seq<AnswerChunk>, replyOnlyAsText: bool): seq<Option<string>> {
    if replyOnlyAsText then [] else Somes(Split(chunks).queued)
  }

  /** Everything `answer_question` puts on the TTS queue for a reply it finishes:
      the flushed sentences, the non-empty remainder, then the `None` sentinel. */
  function TtsItems(chunks: seq<AnswerChunk>, replyOnlyAsText: bool): seq<Option<string>> {
    var rest := Split(chunks).pending;
    FlushedSentences(chunks, replyOnlyAsText)
    + (if rest != "" && !replyOnlyAsText then [Some(rest)] else [])
    + [None]
  }

  lemma ConcatPushSentence(queued: seq<string>, pending: string, content: string)
    ensures Concat(queued + [pending + content]) == Concat(queued) + pending + content
  {
    ConcatAppend(queued, [pending + content]);
    assert [pending + content][..0] == [];
  }

  /** One step appends the chunk's text, if it is a text chunk, to what was split so far. */
  lemma SplitStepKeepsText(st: Splitter, chunk: AnswerChunk)
    ensures var r := SplitStep(st, chunk);
      Concat(r.queued) + r.pending
      == Concat(st.queued) + st.pending + (if chunk.chunkType == "text" then chunk.content else "")
  {
    var r := SplitStep(st, chunk);
    if chunk.chunkType == "text" {
      if r.pending == "" {
        ConcatPushSentence(st.queued, st.pending, chunk.content);
      }
    }
  }

  /** The sentences sent so far followed by the pending one spell out the text chunks. */
  lemma {:induction false} SplitKeepsText(chunks: seq<AnswerChunk>)
    ensures Concat(Split(chunks).queued) + Split(chunks).pending == Concat(TextContents(chunks))
  {
    if chunks != [] {
      var init := chunks[..|chunks| - 1];
      var last := chunks[|chunks| - 1];
      SplitKeepsText(init);
      SplitStepKeepsText(Split(init), last);
      assert Split(chunks) == SplitStep(Split(init), last);
      var tail := if last.chunkType == "text" then [last.content] else [];
      assert TextContents(chunks) == TextContents(init) + tail;
      ConcatAppend(TextContents(init), tail);
      assert Concat(tail) == (if last.chunkType == "text" then last.content else "") by {
        if tail != [] {
          assert tail[..0] == [];
        }
      }
    }
  }

  lemma {:induction false} SpokenSomes(xs: seq<string>)
    ensures Spoken(Somes(xs)) == Concat(xs)
  {
    if xs != [] {
      var init := xs[..|xs| - 1];
      SpokenSomes(init);
      assert Somes(xs)[..|xs| - 1] == Somes(init);
    }
  }

  lemma {:induction false} SpokenAppend(a: seq<Option<string>>, b: seq<Option<string>>)
    ensures Spoken(a + b) == Spoken(a) + Spoken(b)
    decreases |b|
  {
    if b == [] {
      assert a + b == a;
    } else {
      assert (a + b)[..|a + b| - 1] == a + b[..|b| - 1];
      SpokenAppend(a, b[..|b| - 1]);
    }
  }

  /** A spoken reply that runs to its end reads out exactly the text chunks, nothing
      of the code chunks, and nothing twice. */
  lemma TtsSpeaksAllText(chunks: seq<AnswerChunk>)
    ensures Spoken(TtsItems(chunks, false)) == Concat(TextContents(chunks))
  {
    var st := Split(chunks);
    var rest := if st.pending != "" then [Some(st.pending)] else [];
    SpokenAppend(Somes(st.queued) + rest, [None]);
    SpokenAppend(Somes(st.queued), rest);
    SpokenSomes(st.queued);
    SplitKeepsText(chunks);
    assert Spoken([None]) == "";
    if st.pending != "" {
      assert Spoken(rest) == st.pending;
    } else {
      assert Spoken(rest) == "";
    }
  }

  /** The `None` sentinel is the last item of a finished answer, and the only `None`. */
  lemma TtsEndsWithSentinel(chunks: seq<AnswerChunk>, replyOnlyAsText: bool)
    ensures var items := TtsItems(chunks, replyOnlyAsText);
      items != [] && items[|items| - 1] == None
      && forall k :: 0 <= k < |items| - 1 ==> items[k].Some?
  {
  }

  /** A text-only reply puts nothing but the sentinel on the TTS queue. */
  lemma TextOnlyQueuesSentinel(chunks: seq<AnswerChunk>)
    ensures TtsItems(chunks, true) == [None]
  {
  }

  /** Code chunks do not change what is spoken or where sentences are cut. */
  lemma {:induction false} SplitIgnoresCode(chunks: seq<AnswerChunk>)
    ensures Split(TextChunks(chunks)) == Split(chunks)
  {
    if chunks != [] {
      var init := chunks[..|chunks| - 1];
      var last := chunks[|chunks| - 1];
      SplitIgnoresCode(init);
      assert Split(chunks) == SplitStep(Split(init), last);
      if last.chunkType == "text" {
        var t := TextChunks(init) + [last];
        assert TextChunks(chunks) == t;
        assert t[..|t| - 1] == TextChunks(init);
        assert Split(t) == SplitStep(Split(TextChunks(init)), last);
      } else {
        assert TextChunks(chunks) == TextChunks(init);
        assert SplitStep(Split(init), last) == Split(init);
      }
    }
  }

  /** Every sentence sent to TTS while streaming, once stripped, ends in "?", "!" or ".",
      and one ending in "." does not have a digit just before that dot. */
  predicate IsSpokenSentence(s: string) {
    var t := Strip(s);
    t != [] && t[|t| - 1] in SentenceEnds && (t[|t| - 1] == '.' ==> !DigitBeforeEnd(s))
  }

  lemma FlushedIsSpokenSentence(pending: string, content: string)
    requires Flushes(pending + content, content)
    ensures IsSpokenSentence(pending + content)
  {
    var u := Strip(content);
    assert u != [] && u[|u| - 1] in SentenceEnds;
    StripCharsAppendEnd(pending, content, Whitespace);
    var t := Strip(pending + content);
    assert t != [] && t[|t| - 1] == u[|u| - 1];
  }

  lemma {:induction false} SplitSentencesEnd(chunks: seq<AnswerChunk>)
    ensures forall k :: 0 <= k < |Split(chunks).queued| ==> IsSpokenSentence(Split(chunks).queued[k])
  {
    if chunks != [] {
      var init := chunks[..|chunks| - 1];
      var last := chunks[|chunks| - 1];
      SplitSentencesEnd(init);
      var st := Split(init);
      assert Split(chunks) == SplitStep(st, last);
      if last.chunkType == "text" && Flushes(st.pending + last.content, last.content) {
        FlushedIsSpokenSentence(st.pending, last.content);
        assert Split(chunks).queued == st.queued + [st.pending + last.content];
      } else {
        assert Split(chunks).queued == st.queued;
      }
    }
  }

  /** The index of the chunk at which the interrupt or exit flag is first seen set,
      or the length of the reply when it never is. */
  function StopIndex(interruptAt: Option<nat>, n: nat): (r: nat)
    ensures r <= n
    ensures r == n <==> interruptAt.None? || interruptAt.value >= n
  {
    if interruptAt.Some? && interruptAt.value < n then interruptAt.value else n
  }

  /** What `listen` gave: no audio at all, or a recording, whether it lasts the minimum
      prompt duration, and what the recogniser made of it. */
  datatype Utterance = NoAudio | Utterance(longEnough: bool, transcript: string)

  /** Whether the normalised question starts with one of the normalised exit expressions. */
  predicate IsExitRequest(question: string, exitExpressions: seq<string>, normalize: string -> string) {
    exists k :: 0 <= k < |exitExpressions| && StartsWith(normalize(question), normalize(exitExpressions[k]))
  }

  /** What `handle_question_listening` puts on the questions queue for one recording. */
  function QuestionItems(u: Utterance, exitExpressions: seq<string>, normalize: string -> string): seq<Option<string>> {
    if u.NoAudio? then [None]
    else if !u.longEnough then []
    else if IsExitRequest(u.transcript, exitExpressions, normalize) then [None]
    else if u.transcript != "" then [Some(u.transcript)]
    else []
  }

  /** What it puts on the queue for a sequence of recordings. */
  function QueuedQuestions(us: seq<Utterance>, exitExpressions: seq<string>, normalize: string -> string): seq<Option<string>> {
    if us == [] then []
    else QueuedQuestions(us[..|us| - 1], exitExpressions, normalize) + QuestionItems(us[|us| - 1], exitExpressions, normalize)
  }

  /** Every question on `q` is a non-empty transcript that is not an exit request. */
  predicate QuestionsSound(q: seq<Option<string>>, exitExpressions: seq<string>, normalize: string -> string) {
    forall k :: 0 <= k < |q| && q[k].Some? ==>
      q[k].value != "" && !IsExitRequest(q[k].value, exitExpressions, normalize)
  }

  /** Only non-empty transcripts that do not ask to exit are queued as questions. */
  lemma {:induction false} QueuedQuestionsSound(us: seq<Utterance>, exitExpressions: seq<string>, normalize: string -> string)
    ensures QuestionsSound(QueuedQuestions(us, exitExpressions, normalize), exitExpressions, normalize)
  {
    if us != [] {
      var init := us[..|us| - 1];
      QueuedQuestionsSound(init, exitExpressions, normalize);
      var a := QueuedQuestions(init, exitExpressions, normalize);
      var b := QuestionItems(us[|us| - 1], exitExpressions, normalize);
      assert QuestionsSound(b, exitExpressions, normalize);
      var q := QueuedQuestions(us, exitExpressions, normalize);
      assert q == a + b;
      forall k | 0 <= k < |q| && q[k].Some?
        ensures q[k].value != "" && !IsExitRequest(q[k].value, exitExpressions, normalize)
      {
        if k < |a| {
          assert q[k] == a[k];
        } else {
          assert q[k] == b[k - |a|];
        }
      }
    }
  }

  /** When no recording asks to exit, no `None` reaches the queue. */
  lemma {:induction false} NoExitNoSentinel(us: seq<Utterance>, exitExpressions: seq<string>, normalize: string -> string)
    requires forall k :: 0 <= k < |us| ==> us[k].Utterance? && !IsExitRequest(us[k].transcript, exitExpressions, normalize)
    ensures forall k :: 0 <= k < |QueuedQuestions(us, exitExpressions, normalize)| ==>
      QueuedQuestions(us, exitExpressions, normalize)[k].Some?
  {
    if us != [] {
      NoExitNoSentinel(us[..|us| - 1], exitExpressions, normalize);
    }
  }

  /** A recording queues the sentinel exactly when it is missing or asks to exit, and
      queues nothing exactly when it is too short or an empty non-exit transcript;
      the items of later recordings follow those of earlier ones. */
  lemma QuestionItemsCases(us: seq<Utterance>, u: Utterance, exitExpressions: seq<string>, normalize: string -> string)
    ensures QueuedQuestions(us + [u], exitExpressions, normalize)
      == QueuedQuestions(us, exitExpressions, normalize) + QuestionItems(u, exitExpressions, normalize)
    ensures QuestionItems(u, exitExpressions, normalize) == [None] <==>
      u.NoAudio? || (u.longEnough && IsExitRequest(u.transcript, exitExpressions, normalize))
    ensures QuestionItems(u, exitExpressions, normalize) == [] <==>
      u.Utterance? && (!u.longEnough || (!IsExitRequest(u.transcript, exitExpressions, normalize) && u.transcript == ""))
  {
    assert (us + [u])[..|us + [u]| - 1] == us;
  }

  /** One more chunk: what it adds to the flushed sentences and the pending sentence. */
  lemma AnswerStep(prefix: seq<AnswerChunk>, chunk: AnswerChunk, replyOnlyAsText: bool)
    ensures var pending := Split(prefix).pending;
      var sentence := pending + chunk.content;
      var flush := chunk.chunkType == "text" && Flushes(sentence, chunk.content);
      && FlushedSentences(prefix + [chunk], replyOnlyAsText)
        == FlushedSentences(prefix, replyOnlyAsText) + (if flush && !replyOnlyAsText then [Some(sentence)] else [])
      && Split(prefix + [chunk]).pending
        == (if chunk.chunkType != "text" then pending else if flush then "" else sentence)
  {
    var chunks := prefix + [chunk];
    assert chunks[..|chunks| - 1] == prefix;
    assert Split(chunks) == SplitStep(Split(prefix), chunk);
    if !replyOnlyAsText {
      var q := Split(prefix).queued;
      var sentence := Split(prefix).pending + chunk.content;
      if chunk.chunkType == "text" && Flushes(sentence, chunk.content) {
        assert Split(chunks).queued == q + [sentence];
        assert (q + [sentence])[..|q|] == q;
      }
    }
  }

  class VoiceChat {
    const sampleRate: int
    const frameDuration: int
    const blockSize: int
    const replyOnlyAsText: bool
    const exitExpressions: seq<string>
    var ttsQueue: seq<Option<string>>
    var questionsQueue: seq<Option<string>>

    constructor(sampleRate: int, frameDuration: int, replyOnlyAsText: bool, exitExpressions: seq<string>)
      ensures this.sampleRate == sampleRate && this.frameDuration == frameDuration
      ensures this.replyOnlyAsText == replyOnlyAsText && this.exitExpressions == exitExpressions
      ensures blockSize == LiveAssistant.BlockSize(sampleRate, frameDuration)
      ensures ttsQueue == [] && questionsQueue == []
    {
      this.sampleRate := sampleRate;
      this.frameDuration := frameDuration;
      this.blockSize := LiveAssistant.BlockSize(sampleRate, frameDuration);
      this.replyOnlyAsText := replyOnlyAsText;
      this.exitExpressions := exitExpressions;
      ttsQueue := [];
      questionsQueue := [];
    }

    /** The loop body of `answer_question` for one chunk: a text chunk, when the reply is
        spoken, is added to the sentence, and the sentence is queued when it flushes. */
    method FeedChunk(ghost prefix: seq<AnswerChunk>, ghost base: seq<Option<string>>, sentence: string, chunk: AnswerChunk)
      returns (next: string)
      requires ttsQueue == base + FlushedSentences(prefix, replyOnlyAsText)
      requires sentence == if replyOnlyAsText then "" else Split(prefix).pending
      modifies this`ttsQueue
      ensures ttsQueue == base + FlushedSentences(prefix + [chunk], replyOnlyAsText)
      ensures next == if replyOnlyAsText then "" else Split(prefix + [chunk]).pending
    {
      AnswerStep(prefix, chunk, replyOnlyAsText);
      ghost var flushed := FlushedSentences(prefix, replyOnlyAsText);
      next := sentence;
      if chunk.chunkType == "text" && !replyOnlyAsText {
        next := next + chunk.content;
        if Flushes(next, chunk.content) {
          assert FlushedSentences(prefix + [chunk], replyOnlyAsText) == flushed + [Some(next)];
          ttsQueue := ttsQueue + [Some(next)];
          assert ttsQueue == base + (flushed + [Some(next)]);
          next := "";
        } else {
          assert FlushedSentences(prefix + [chunk], replyOnlyAsText) == flushed;
        }
      } else {
        assert FlushedSentences(prefix + [chunk], replyOnlyAsText) == flushed;
      }
    }

    /** `answer_question`: yields the reply's chunks unchanged until the interrupt or exit
        flag is seen, and feeds the TTS queue. An interrupted answer stops at once: its
        unsent remainder and the `None` sentinel are never queued, and since the
        `StopIteration` is raised inside a generator, Python (PEP 479) hands the
        consumer a `RuntimeError` instead of a normal end of iteration. */
    method AnswerQuestion(reply: seq<AnswerChunk>, interruptAt: Option<nat>)
      returns (yielded: seq<AnswerChunk>, outcome: AnswerOutcome)
      modifies this`ttsQueue
      ensures yielded == reply[..StopIndex(interruptAt, |reply|)]
      ensures outcome.Finished? <==> StopIndex(interruptAt, |reply|) == |reply|
      ensures outcome.RuntimeError? ==> outcome.message == StopIterationInGenerator
      ensures outcome.Finished? ==> ttsQueue == old(ttsQueue) + TtsItems(reply, replyOnlyAsText)
      ensures outcome.RuntimeError? ==>
        ttsQueue == old(ttsQueue) + FlushedSentences(reply[..StopIndex(interruptAt, |reply|)], replyOnlyAsText)
    {
      var sentence := "";
      yielded := [];
      var i := 0;
      var stop := StopIndex(interruptAt, |reply|);
      while i < |reply| && interruptAt != Some(i)
        invariant 0 <= i <= stop
        invariant yielded == reply[..i]
        invariant ttsQueue == old(ttsQueue) + FlushedSentences(reply[..i], replyOnlyAsText)
        invariant sentence == if replyOnlyAsText then "" else Split(reply[..i]).pending
      {
        var chunk := reply[i];
        assert reply[..i + 1] == reply[..i] + [chunk];
        sentence := FeedChunk(reply[..i], old(ttsQueue), sentence, chunk);
        yielded := yielded + [chunk];
        i := i + 1;
      }
      if i < |reply| {
        return yielded, RuntimeError(StopIterationInGenerator);
      }
      assert reply[..i] == reply;
      if sentence != "" && !replyOnlyAsText {
        ttsQueue := ttsQueue + [Some(sentence)];
      }
      ttsQueue := ttsQueue + [None];
      outcome := Finished;
    }

    /** `handle_question_listening` over the recordings made before the chat exits: a
        missing recording or an exit request queues `None`, too short ones are dropped,
        other non-empty transcripts are queued. */
    method HandleQuestionListening(us: seq<Utterance>, normalize: string -> string)
      modifies this`questionsQueue
      ensures questionsQueue == old(questionsQueue) + QueuedQuestions(us, exitExpressions, normalize)
    {
      var i := 0;
      while i < |us|
        invariant 0 <= i <= |us|
        invariant questionsQueue == old(questionsQueue) + QueuedQuestions(us[..i], exitExpressions, normalize)
      {
        assert us[..i + 1][..i] == us[..i];
        var u := us[i];
        if u.NoAudio? {
          questionsQueue := questionsQueue + [None];
        } else if u.longEnough {
          var question := u.transcript;
          if exists k :: 0 <= k < |exitExpressions| && StartsWith(normalize(question), normalize(exitExpressions[k])) {
            questionsQueue := questionsQueue + [None];
          } else if question != "" {
            questionsQueue := questionsQueue + [Some(question)];
          }
        }
        i := i + 1;
      }
      assert us[..i] == us;
    }
  }
}
