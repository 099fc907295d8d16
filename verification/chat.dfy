/** Session bookkeeping of `Chat` (pyrobbot/chat.py): prompt normalisation, the
    context-handler choice, the base directive, the shared translation cache, the
    initial greeting, lazily loaded metadata and the history update after a reply.
    The language model, web search and the context handler's retrieval are oracles:
    their outputs are parameters. */
module ChatSession {
  import opened Wrappers
  import opened Text

  /** A chat message: role, an optional `name` entry, content. */
  datatype Message = Message(role: string, name: Option<string>, content: string)

  /** The configuration fields the modelled operations read. */
  datatype ChatConfigs = ChatConfigs(
    model: string,
    username: string,
    assistantName: string,
    systemName: string,
    aiInstructions: seq<string>,
    language: string,
    contextModel: string)

  /** What the base directive reads from outside the chat: today's date (as
      `%A, %Y-%m-%d`) and the city and country of the IP lookup. */
  datatype Environment = Environment(today: string, city: string, country: string)

  datatype ContextHandlerKind = FullHistoryContext | EmbeddingBasedContext

  datatype ChatError = NotImplementedError(message: string)

  // ---------------------------------------------------------------------------
  // Prompt normalisation

  /** Neither empty nor starting or ending with whitespace. */
  predicate Trimmed(s: string) {
    s != [] && s[0] !in Whitespace && s[|s| - 1] !in Whitespace
  }

  predicate NoUpperAscii(s: string) {
    forall k :: 0 <= k < |s| ==> !('A' <= s[k] <= 'Z')
  }

  /** `_respond_prompt`: the message built from a prompt and a role. */
  function PromptMessage(prompt: string, role: string): (r: Message)
    ensures r.name == None
    ensures IsStripOf(r.content, prompt, Whitespace)
    ensures IsStripOf(r.role, Lower(role), Whitespace)
    ensures r.content == [] || Trimmed(r.content)
    ensures r.role == [] || Trimmed(r.role)
    ensures NoUpperAscii(r.role)
  {
    StripCharsEnds(prompt, Whitespace);
    StripCharsEnds(Lower(role), Whitespace);
    StripCharsSpec(prompt, Whitespace);
    StripCharsSpec(Lower(role), Whitespace);
    LowerNoUpper(role);
    StripKeepsLower(Lower(role));
    Message(Strip(Lower(role)), None, Strip(prompt))
  }

  /** Stripping keeps a string free of upper-case ASCII letters. */
  lemma StripKeepsLower(s: string)
    requires NoUpperAscii(s)
    ensures NoUpperAscii(Strip(s))
  {
    var e := TrimEnd(s, Whitespace);
    var r := TrimStart(e, Whitespace);
    TrimEndSpec(s, Whitespace);
    TrimStartSpec(e, Whitespace);
    forall k | 0 <= k < |r| ensures !('A' <= r[k] <= 'Z') {
      assert r[k] == e[|e| - |r| + k] == s[|e| - |r| + k];
    }
  }

  lemma LowerNoUpper(s: string)
    ensures NoUpperAscii(Lower(s))
  {
  }

  /** Lower-casing a string without upper-case ASCII letters changes nothing. */
  lemma LowerFixes(s: string)
    requires NoUpperAscii(s)
    ensures Lower(s) == s
  {
  }

  /** Normalising an already normalised message gives the same message. */
  lemma PromptMessageIdempotent(prompt: string, role: string)
    ensures var m := PromptMessage(prompt, role);
      PromptMessage(m.content, m.role) == m
  {
    var m := PromptMessage(prompt, role);
    StripCharsIdempotent(prompt, Whitespace);
    LowerFixes(m.role);
    StripCharsIdempotent(Lower(role), Whitespace);
  }

  // ---------------------------------------------------------------------------
  // Context handler dispatch

  /** `context_handler`: the handler a `context_model` value selects, or the
      `NotImplementedError` raised for any other value. */
  function ContextHandler(contextModel: string): (r: Result<ContextHandlerKind, ChatError>)
    ensures r == Success(FullHistoryContext) <==> contextModel == "full-history"
    ensures r == Success(EmbeddingBasedContext) <==> contextModel == "text-embedding-ada-002"
    ensures r.Failure? <==> contextModel != "full-history" && contextModel != "text-embedding-ada-002"
    ensures r.Failure? ==> r.error.message == "Unknown context model: " + contextModel
  {
    if contextModel == "full-history" then Success(FullHistoryContext)
    else if contextModel == "text-embedding-ada-002" then Success(EmbeddingBasedContext)
    else Failure(NotImplementedError("Unknown context model: " + contextModel))
  }

  // ---------------------------------------------------------------------------
  // Base directive

  const InstructionTrim: set<char> := {' ', '.'}

  /** One entry of `ai_instructions` as it enters the directive:
      `f"{instruct.strip(' .')}."`. */
  function FormatInstruction(instruction: string): (r: string)
    ensures r != [] && r[|r| - 1] == '.'
    ensures IsStripOf(r[..|r| - 1], instruction, InstructionTrim)
    ensures var body := r[..|r| - 1];
      body == [] || (body[0] !in InstructionTrim && body[|body| - 1] !in InstructionTrim)
  {
    StripCharsEnds(instruction, InstructionTrim);
    StripCharsSpec(instruction, InstructionTrim);
    assert (StripChars(instruction, InstructionTrim) + ".")[..|StripChars(instruction, InstructionTrim)|]
      == StripChars(instruction, InstructionTrim);
    StripChars(instruction, InstructionTrim) + "."
  }

  /** Formatting an instruction twice is formatting it once. */
  lemma FormatInstructionIdempotent(instruction: string)
    ensures FormatInstruction(FormatInstruction(instruction)) == FormatInstruction(instruction)
  {
    var s := StripChars(instruction, InstructionTrim);
    StripCharsEnds(instruction, InstructionTrim);
    var x := s + ".";
    assert x[..|x| - 1] == s;
    assert TrimEnd(x, InstructionTrim) == TrimEnd(s, InstructionTrim);
    if s != [] {
      StripCharsKeeps(s, InstructionTrim);
    }
  }

  function FormatInstructions(instructions: seq<string>): (r: seq<string>)
    ensures |r| == |instructions|
    ensures forall k :: 0 <= k < |r| ==> r[k] == FormatInstruction(instructions[k])
  {
    if instructions == [] then []
    else [FormatInstruction(instructions[0])] + FormatInstructions(instructions[1..])
  }

  /** The instruction pieces of the directive, before they are stripped and filtered. */
  function DirectivePieces(c: ChatConfigs, env: Environment): seq<string> {
    [ "Your name is " + c.assistantName + ". Your model is " + c.model + ".",
      "You are a helpful assistant to " + c.username + ".",
      Join(" ", FormatInstructions(c.aiInstructions)),
      "Today is " + env.today + ". ",
      "The current city is " + env.city + " in ",
      env.country + ", ",
      "You must observe and follow all directives by " + c.systemName + " ",
      "unless otherwise instructed by " + c.username + ". ",
      LookupRule,
      LookupPromise ]
  }

  /** The two fixed pieces that tell the model to agree to look information up online. */
  const LookupRule: string :=
    "If asked to look up for information online, you must ALWAYS agree. "
    + "If you are not able to provide information, you MUST:\n"
    + "(1) Communicate that you don't have that information\n"
  const LookupPromise: string :=
    "(2) State clearly --unless you have already done so -- that you WILL look it up online now"

  /** `[p.strip() for p in pieces if p.strip()]`. */
  function CleanPieces(pieces: seq<string>): (r: seq<string>)
    ensures |r| <= |pieces|
    ensures forall k :: 0 <= k < |r| ==> Trimmed(r[k])
  {
    if pieces == [] then []
    else
      var s := Strip(pieces[0]);
      var rest := CleanPieces(pieces[1..]);
      if s == [] then rest
      else
        StripCharsEnds(pieces[0], Whitespace);
        assert Trimmed(s);
        [s] + rest
  }

  /** How many pieces are not blank once stripped. */
  function NonBlankCount(pieces: seq<string>): nat {
    if pieces == [] then 0
    else (if Strip(pieces[0]) == [] then 0 else 1) + NonBlankCount(pieces[1..])
  }

  /** `ps` holds the stripped non-blank pieces, in order: one entry per non-blank
      piece, the one at index `k` sitting after those of the pieces before it. */
  ghost predicate CleanedFrom(ps: seq<string>, pieces: seq<string>) {
    |ps| == NonBlankCount(pieces)
    && forall k :: 0 <= k < |pieces| && Strip(pieces[k]) != [] ==>
         NonBlankCount(pieces[..k]) < |ps| && ps[NonBlankCount(pieces[..k])] == Strip(pieces[k])
  }

  /** Cleaning keeps every non-blank piece, stripped, in its order, and nothing else. */
  lemma {:induction false} CleanPiecesExact(pieces: seq<string>)
    ensures CleanedFrom(CleanPieces(pieces), pieces)
  {
    if pieces != [] {
      var tail := pieces[1..];
      CleanPiecesExact(tail);
      var s := Strip(pieces[0]);
      var rest := CleanPieces(tail);
      var r := CleanPieces(pieces);
      var b := if s == [] then 0 else 1;
      assert r == if s == [] then rest else [s] + rest;
      forall k | 0 <= k < |pieces| && Strip(pieces[k]) != []
        ensures NonBlankCount(pieces[..k]) < |r| && r[NonBlankCount(pieces[..k])] == Strip(pieces[k])
      {
        if k == 0 {
          assert pieces[..k] == [];
        } else {
          assert pieces[..k][1..] == tail[..k - 1];
          assert pieces[k] == tail[k - 1];
          assert NonBlankCount(pieces[..k]) == b + NonBlankCount(tail[..k - 1]);
        }
      }
    }
  }

  /** The description is complete: only `CleanPieces` fits it. */
  lemma {:induction false} CleanedFromUnique(ps: seq<string>, pieces: seq<string>)
    requires CleanedFrom(ps, pieces)
    ensures ps == CleanPieces(pieces)
  {
    if pieces != [] {
      var tail := pieces[1..];
      var s := Strip(pieces[0]);
      var qs := if s == [] then ps else ps[1..];
      var b := if s == [] then 0 else 1;
      forall k | 0 <= k < |tail| && Strip(tail[k]) != []
        ensures NonBlankCount(tail[..k]) < |qs| && qs[NonBlankCount(tail[..k])] == Strip(tail[k])
      {
        assert pieces[..k + 1][1..] == tail[..k];
        assert pieces[k + 1] == tail[k];
        assert NonBlankCount(pieces[..k + 1]) == b + NonBlankCount(tail[..k]);
      }
      CleanedFromUnique(qs, tail);
      if s != [] {
        assert pieces[..0] == [];
        assert ps == [s] + qs;
      }
    }
  }

  /** Cleaning cleaned pieces changes nothing. */
  lemma {:induction false} CleanPiecesIdempotent(pieces: seq<string>)
    ensures CleanPieces(CleanPieces(pieces)) == CleanPieces(pieces)
  {
    if pieces != [] {
      var s := Strip(pieces[0]);
      var rest := CleanPieces(pieces[1..]);
      CleanPiecesIdempotent(pieces[1..]);
      if s != [] {
        StripCharsIdempotent(pieces[0], Whitespace);
        assert ([s] + rest)[1..] == rest;
      } else {
        assert CleanPieces(pieces) == rest;
      }
    }
  }

  /** A piece that starts and ends with non-whitespace survives the cleaning unchanged, in front. */
  lemma CleanPiecesHead(pieces: seq<string>)
    requires pieces != [] && Trimmed(pieces[0])
    ensures CleanPieces(pieces) != [] && CleanPieces(pieces)[0] == pieces[0]
  {
    StripCharsKeeps(pieces[0], Whitespace);
  }

  /** The base directive: a system message with the chat's system name whose
      content is the space-join of the cleaned pieces. */
  function BaseDirective(c: ChatConfigs, env: Environment): (r: Message)
    ensures r.role == "system" && r.name == Some(c.systemName)
    ensures exists ps :: CleanedFrom(ps, DirectivePieces(c, env)) && r.content == Join(" ", ps)
  {
    CleanPiecesExact(DirectivePieces(c, env));
    Message("system", Some(c.systemName), Join(" ", CleanPieces(DirectivePieces(c, env))))
  }

  /** The conversation sent to the model: the base directive, the context the
      handler selected, then the prompt message. */
  function Conversation(c: ChatConfigs, env: Environment, context: seq<Message>, promptMsg: Message): (r: seq<Message>)
    ensures |r| == |context| + 2 && r[0] == BaseDirective(c, env) && r[|r| - 1] == promptMsg
    ensures r[1..|r| - 1] == context
  {
    [BaseDirective(c, env)] + context + [promptMsg]
  }

  /** Joining trimmed strings with a single space starts with the first one and
      ends with the last character of the last one. */
  lemma {:induction false} JoinTrimmed(xs: seq<string>)
    requires xs != []
    requires forall k :: 0 <= k < |xs| ==> Trimmed(xs[k])
    ensures var j := Join(" ", xs); Trimmed(j) && StartsWith(j, xs[0])
  {
    var j := Join(" ", xs);
    if |xs| > 1 {
      JoinTrimmed(xs[1..]);
      var t := Join(" ", xs[1..]);
      assert j == xs[0] + " " + t;
      assert j[|j| - 1] == t[|t| - 1];
      assert j[..|xs[0]|] == xs[0];
    }
  }

  /** The directive's content opens with the assistant's name and model, and
      carries no leading or trailing whitespace. */
  lemma BaseDirectiveContent(c: ChatConfigs, env: Environment)
    ensures var content := BaseDirective(c, env).content;
      Trimmed(content)
      && StartsWith(content, "Your name is " + c.assistantName + ". Your model is " + c.model + ".")
  {
    var pieces := DirectivePieces(c, env);
    var first := pieces[0];
    assert first[0] == 'Y' && first[|first| - 1] == '.';
    CleanPiecesHead(pieces);
    JoinTrimmed(CleanPieces(pieces));
  }

  // ---------------------------------------------------------------------------
  // Translation cache

  /** The characters stripped from a translation: space and both quote marks. */
  const QuoteTrim: set<char> := {' ', '\'', '"'}

  /** `_translation_cache[text].get(lang)` taken as a hit only when it is non-empty. */
  function CacheHit(entries: map<string, map<string, string>>, text: string, lang: string): (r: Option<string>)
    ensures r.Some? <==> text in entries && lang in entries[text] && entries[text][lang] != ""
    ensures r.Some? ==> r.value == entries[text][lang]
  {
    if text in entries && lang in entries[text] && entries[text][lang] != "" then
      Some(entries[text][lang])
    else None
  }

  /** The cache after `translation` is stored under `[text][lang]`. */
  function CacheStore(entries: map<string, map<string, string>>, text: string, lang: string,
                      translation: string): (r: map<string, map<string, string>>)
    ensures r.Keys == entries.Keys + {text}
    ensures lang in r[text] && r[text][lang] == translation
    ensures r[text].Keys == (if text in entries then entries[text].Keys else {}) + {lang}
    ensures forall l :: l in r[text] && l != lang ==> r[text][l] == entries[text][l]
    ensures forall t :: t in entries && t != text ==> r[t] == entries[t]
  {
    var inner := if text in entries then entries[text] else map[];
    entries[text := inner[lang := translation]]
  }

  /** The prompt `_translate` sends to the model on a cache miss. */
  function TranslationPrompt(text: string, lang: string): string {
    "Translate the text between triple quotes to " + lang + ". "
      + "DO NOT WRITE ANYTHING ELSE. Only the translation. "
      + "If the text is already in " + lang + ", then just repeat "
      + "it verbatim in " + lang + " without adding anything.\n"
      + "'''" + text + "'''"
  }

  /** What `_translate` returns: the cached translation on a hit, else the model's
      reply stripped of spaces and quote marks. */
  function Translation(entries: map<string, map<string, string>>, text: string, lang: string,
                       modelReply: string): string
  {
    match CacheHit(entries, text, lang)
    case Some(t) => t
    case None => StripChars(modelReply, QuoteTrim)
  }

  /** The cache after `_translate`: unchanged on a hit, the new translation stored on a miss. */
  function CacheAfterTranslation(entries: map<string, map<string, string>>, text: string, lang: string,
                                 modelReply: string): map<string, map<string, string>>
  {
    if CacheHit(entries, text, lang).Some? then entries
    else CacheStore(entries, text, lang, Translation(entries, text, lang, modelReply))
  }

  /** A hit ignores the model: any two replies give the same translation and cache. */
  lemma TranslationHitIgnoresModel(entries: map<string, map<string, string>>, text: string, lang: string,
                                   reply1: string, reply2: string)
    requires CacheHit(entries, text, lang).Some?
    ensures Translation(entries, text, lang, reply1) == Translation(entries, text, lang, reply2)
                                                    == entries[text][lang]
    ensures CacheAfterTranslation(entries, text, lang, reply1) == entries
  {
  }

  /** After a miss the stored translation is served from then on, unless it was
      empty: an empty cached value is still a miss. */
  lemma TranslationThenCached(entries: map<string, map<string, string>>, text: string, lang: string,
                              reply: string, laterReply: string)
    requires CacheHit(entries, text, lang).None?
    ensures var t := Translation(entries, text, lang, reply);
      var after := CacheAfterTranslation(entries, text, lang, reply);
      t == StripChars(reply, QuoteTrim)
      && after[text][lang] == t
      && (t != "" ==> Translation(after, text, lang, laterReply) == t
                      && CacheAfterTranslation(after, text, lang, laterReply) == after)
      && (t == "" ==> Translation(after, text, lang, laterReply) == StripChars(laterReply, QuoteTrim))
  {
  }

  /** The class-level translation cache, shared by every chat of the process. */
  class TranslationCache {
    var entries: map<string, map<string, string>>

    constructor ()
      ensures entries == map[]
    {
      entries := map[];
    }
  }

  /** `Chat.initial_greeting` when no greeting was passed. */
  function DefaultGreeting(assistantName: string): string {
    "Hi! I'm " + assistantName + ". How can I assist you?"
  }

  /** The metadata `save_cache` writes: whatever was loaded, with "chat_id" set. */
  function SavedMetadata(loaded: map<string, string>, chatId: string): (r: map<string, string>)
    ensures "chat_id" in r && r["chat_id"] == chatId
    ensures r.Keys == loaded.Keys + {"chat_id"}
    ensures forall k :: k in loaded && k != "chat_id" ==> r[k] == loaded[k]
  {
    loaded["chat_id" := chatId]
  }

  // ---------------------------------------------------------------------------
  // The reply stream

  /** The outcome of the follow-up calls after the main reply: no web lookup was
      suggested; a lookup found results, summarised by the model in `summary`
      chunks; or a lookup found nothing and the (translated) apology is shown. */
  datatype WebLookup = NoLookup | Summarised(summary: seq<string>) | NothingFound(apology: string)

  /** The chunks `_yield_response_from_msg` yields, in order: every API chunk, then,
      when the check runs, a space and the web summary, or the apology. */
  function ReplyChunks(apiChunks: seq<string>, skipCheck: bool, lookup: WebLookup): seq<string> {
    apiChunks + if skipCheck then [] else match lookup
      case NoLookup => []
      case Summarised(summary) => [" "] + summary
      case NothingFound(apology) => [apology]
  }

  /** The assistant content stored in history: every yielded chunk except the apology. */
  function ReplyContent(apiChunks: seq<string>, skipCheck: bool, lookup: WebLookup): string {
    Concat(apiChunks) + if skipCheck then "" else match lookup
      case NoLookup => ""
      case Summarised(summary) => " " + Concat(summary)
      case NothingFound(_) => ""
  }

  /** The stored reply is the concatenation of what was yielded, less the apology when one was shown. */
  lemma ReplyContentIsYieldedText(apiChunks: seq<string>, skipCheck: bool, lookup: WebLookup)
    ensures var chunks := ReplyChunks(apiChunks, skipCheck, lookup);
      if !skipCheck && lookup.NothingFound? then
        chunks[..|chunks| - 1] == apiChunks && ReplyContent(apiChunks, skipCheck, lookup) == Concat(apiChunks)
      else ReplyContent(apiChunks, skipCheck, lookup) == Concat(chunks)
  {
    var chunks := ReplyChunks(apiChunks, skipCheck, lookup);
    if skipCheck || lookup.NoLookup? {
      assert chunks == apiChunks;
    } else if lookup.Summarised? {
      ConcatAppend(apiChunks, [" "] + lookup.summary);
      ConcatAppend([" "], lookup.summary);
      assert Concat([" "]) == Concat([]) + " ";
    } else {
      assert chunks[..|chunks| - 1] == apiChunks;
    }
  }

  /** Streams the reply: yields every chunk and accumulates the text stored in history. */
  method StreamReply(apiChunks: seq<string>, skipCheck: bool, lookup: WebLookup)
    returns (yielded: seq<string>, fullReply: string)
    ensures yielded == ReplyChunks(apiChunks, skipCheck, lookup)
    ensures fullReply == ReplyContent(apiChunks, skipCheck, lookup)
  {
    yielded, fullReply := [], "";
    var i := 0;
    while i < |apiChunks|
      invariant 0 <= i <= |apiChunks|
      invariant yielded == apiChunks[..i]
      invariant fullReply == Concat(apiChunks[..i])
    {
      assert apiChunks[..i + 1][..i] == apiChunks[..i];
      fullReply := fullReply + apiChunks[i];
      yielded := yielded + [apiChunks[i]];
      i := i + 1;
    }
    assert apiChunks[..i] == apiChunks;
    if !skipCheck {
      match lookup {
        case NoLookup =>
        case Summarised(summary) =>
          fullReply := fullReply + " ";
          yielded := yielded + [" "];
          var j := 0;
          ghost var before := fullReply;
          while j < |summary|
            invariant 0 <= j <= |summary|
            invariant yielded == apiChunks + [" "] + summary[..j]
            invariant fullReply == before + Concat(summary[..j])
          {
            assert summary[..j + 1][..j] == summary[..j];
            fullReply := fullReply + summary[j];
            yielded := yielded + [summary[j]];
            j := j + 1;
          }
          assert summary[..j] == summary;
        case NothingFound(apology) =>
          yielded := yielded + [apology];
      }
    }
  }

  // ---------------------------------------------------------------------------
  // The chat object

  class Chat {
    var id: string
    var configs: ChatConfigs
    /** `_initial_greeting`; `None` while the attribute does not exist. */
    var initialGreetingValue: Option<string>
    /** `_metadata`; `None` until it is first loaded or set. */
    var metadataValue: Option<map<string, string>>
    /** The context handler's stored history of message exchanges. */
    var history: seq<Message>
    const translationCache: TranslationCache

    constructor (chatId: string, chatConfigs: ChatConfigs, cache: TranslationCache)
      ensures id == chatId && configs == chatConfigs && translationCache == cache
      ensures initialGreetingValue == None && metadataValue == None && history == []
    {
      id := chatId;
      configs := chatConfigs;
      initialGreetingValue := None;
      metadataValue := None;
      history := [];
      translationCache := cache;
    }

    /** `_translate`: `asked` is the prompt sent to the model, `None` on a cache hit. */
    method Translate(text: string, modelReply: string) returns (translation: string, asked: Option<string>)
      modifies translationCache
      ensures translation == Translation(old(translationCache.entries), text, configs.language, modelReply)
      ensures translationCache.entries
        == CacheAfterTranslation(old(translationCache.entries), text, configs.language, modelReply)
      ensures asked.None? <==> CacheHit(old(translationCache.entries), text, configs.language).Some?
      ensures asked.Some? ==> asked.value == TranslationPrompt(text, configs.language)
    {
      var lang := configs.language;
      var entries := translationCache.entries;
      if text in entries && lang in entries[text] && entries[text][lang] != "" {
        return entries[text][lang], None;
      }
      asked := Some(TranslationPrompt(text, lang));
      translation := StripChars(modelReply, QuoteTrim);
      var inner := if text in entries then entries[text] else map[];
      translationCache.entries := entries[text := inner[lang := translation]];
    }

    /** The `initial_greeting` setter. */
    method SetInitialGreeting(value: string)
      modifies this`initialGreetingValue
      ensures initialGreetingValue == Some(Strip(value))
    {
      initialGreetingValue := Some(Strip(value));
    }

    /** The `initial_greeting` getter: a blank or missing greeting becomes the
        default; the greeting is translated when one was passed or the language
        is not English. */
    method InitialGreeting(modelReply: string) returns (greeting: string, asked: Option<string>)
      modifies this`initialGreetingValue, translationCache
      ensures var passed := if old(initialGreetingValue).Some? then Strip(old(initialGreetingValue).value) else "";
        var base := if passed == "" then DefaultGreeting(configs.assistantName) else old(initialGreetingValue).value;
        if passed != "" || configs.language != "en" then
          greeting == Translation(old(translationCache.entries), base, configs.language, modelReply)
          && translationCache.entries
             == CacheAfterTranslation(old(translationCache.entries), base, configs.language, modelReply)
          && (asked.None? <==> CacheHit(old(translationCache.entries), base, configs.language).Some?)
          && (asked.Some? ==> asked.value == TranslationPrompt(base, configs.language))
        else
          greeting == base && asked == None && translationCache.entries == old(translationCache.entries)
      ensures initialGreetingValue == Some(greeting)
    {
      var passed := if initialGreetingValue.Some? then Strip(initialGreetingValue.value) else "";
      if passed == "" {
        initialGreetingValue := Some(DefaultGreeting(configs.assistantName));
      }
      asked := None;
      if passed != "" || configs.language != "en" {
        var translated;
        translated, asked := Translate(initialGreetingValue.value, modelReply);
        initialGreetingValue := Some(translated);
      }
      greeting := initialGreetingValue.value;
    }

    /** The `metadata` getter: loads once from the stored file (`None` stands for a
        missing or unreadable file) and keeps the result. */
    method Metadata(stored: Option<map<string, string>>) returns (m: map<string, string>)
      modifies this`metadataValue
      ensures old(metadataValue).Some? ==> m == old(metadataValue).value
      ensures old(metadataValue).None? ==> m == stored.GetOr(map[])
      ensures metadataValue == Some(m)
    {
      if metadataValue.None? {
        metadataValue := Some(stored.GetOr(map[]));
      }
      m := metadataValue.value;
    }

    /** The `metadata` setter. */
    method SetMetadata(value: map<string, string>)
      modifies this`metadataValue
      ensures metadataValue == Some(value)
    {
      metadataValue := Some(value);
    }

    /** `save_cache`: returns the metadata written to the file, which always carries the chat id. */
    method SaveCache(stored: Option<map<string, string>>) returns (written: map<string, string>)
      modifies this`metadataValue
      ensures var loaded := if old(metadataValue).Some? then old(metadataValue).value else stored.GetOr(map[]);
        written == SavedMetadata(loaded, id)
      ensures metadataValue == Some(written)
    {
      var m := Metadata(stored);
      written := m["chat_id" := id];
      metadataValue := Some(written);
    }

    /** `_yield_response_from_msg`: the conversation sent to the API is the base
        directive, the handler's context and the prompt; every chunk is yielded;
        with `addToHistory`, exactly the prompt and one assistant message are
        appended. An unknown context model raises before anything is sent. The
        web-search check translates through the shared cache, which may then change;
        without the check the cache is left alone. */
    method YieldResponseFromMsg(promptMsg: Message, context: seq<Message>, env: Environment,
                                apiChunks: seq<string>, skipCheck: bool, lookup: WebLookup,
                                addToHistory: bool)
      returns (sent: seq<Message>, yielded: seq<string>, error: Option<ChatError>)
      modifies this`history, translationCache
      ensures ContextHandler(configs.contextModel).Failure? ==>
        error == Some(ContextHandler(configs.contextModel).error) && sent == [] && yielded == []
        && history == old(history)
      ensures ContextHandler(configs.contextModel).Failure? || skipCheck ==>
        translationCache.entries == old(translationCache.entries)
      ensures ContextHandler(configs.contextModel).Success? ==>
        error == None
        && sent == Conversation(configs, env, context, promptMsg)
        && yielded == ReplyChunks(apiChunks, skipCheck, lookup)
      ensures ContextHandler(configs.contextModel).Success? && addToHistory ==>
        history == old(history) + [promptMsg, Message("assistant", None, ReplyContent(apiChunks, skipCheck, lookup))]
      ensures ContextHandler(configs.contextModel).Success? && !addToHistory ==> history == old(history)
    {
      var handler := ContextHandler(configs.contextModel);
      if handler.Failure? {
        sent, yielded, error := [], [], Some(handler.error);
      } else {
        error := None;
        sent := Conversation(configs, env, context, promptMsg);
        var fullReply;
        yielded, fullReply := StreamReply(apiChunks, skipCheck, lookup);
        if addToHistory {
          history := history + [promptMsg, Message("assistant", None, fullReply)];
        }
      }
    }

    /** `_respond_prompt`: normalises the prompt into a message and answers it. */
    method RespondPrompt(prompt: string, role: string, context: seq<Message>, env: Environment,
                         apiChunks: seq<string>, skipCheck: bool, lookup: WebLookup, addToHistory: bool)
      returns (sent: seq<Message>, yielded: seq<string>, error: Option<ChatError>)
      modifies this`history, translationCache
      ensures error.Some? || skipCheck ==> translationCache.entries == old(translationCache.entries)
      ensures error.Some? ==>
        ContextHandler(configs.contextModel).Failure?
        && error == Some(ContextHandler(configs.contextModel).error) && sent == [] && yielded == []
      ensures error.None? ==> yielded == ReplyChunks(apiChunks, skipCheck, lookup)
      ensures error.None? ==> sent == Conversation(configs, env, context, PromptMessage(prompt, role))
      ensures error.None? && addToHistory ==>
        history == old(history) + [PromptMessage(prompt, role),
                                   Message("assistant", None, ReplyContent(apiChunks, skipCheck, lookup))]
      ensures error.None? <==> ContextHandler(configs.contextModel).Success?
      ensures error.Some? || !addToHistory ==> history == old(history)
    {
      sent, yielded, error := YieldResponseFromMsg(PromptMessage(prompt, role), context, env,
                                                   apiChunks, skipCheck, lookup, addToHistory);
    }
  }
}
