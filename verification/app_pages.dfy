/** `AppPage` and `ChatBotPage` of the web app (pyrobbot/app/app_page_templates.py):
    fallback titles, the title getters and setters over the page's state dictionary,
    the page's chat configs, chat object and history, and what a prompt does to the
    page: one user and one assistant message, the one-off auto-title, and the page's
    leftover prompts removed from the app's two prompt queues. `AppPage` is abstract
    and `ChatBotPage` is its only page, so its members are folded into `ChatBotPage`. */
module AppPages {
  import opened Wrappers
  import opened Text
  import opened SessionState
  import ChatSession
  import PageQueue

  /** A chat history longer than this gets a title. */
  const MinHistoryLenForSummary: nat := 3

  const SummaryPrompt: string := "Summarize the previous messages in max 4 words"

  /** The `page_title` argument: the `_RecoveredChat` sentinel or a string. */
  datatype PageTitleArg = RecoveredChat | GivenTitle(title: string)

  /** The `KeyError` raised when the app holds no "chat_configs". */
  datatype KeyError = KeyError(key: string)

  /** `f"Chat #{page_number}"`. */
  function ChatNumberTitle(n: int): (r: string)
    ensures |r| > 6 && r[..6] == "Chat #" && r[0] == 'C' && IsDigit(r[|r| - 1])
    ensures n >= 0 ==> var digits := r[6..];
      (forall k :: 0 <= k < |digits| ==> IsDigit(digits[k])) && DecimalValue(digits) == n
  {
    NatToStringValue(if n >= 0 then n else -n);
    assert ("Chat #" + IntToString(n))[6..] == IntToString(n);
    "Chat #" + IntToString(n)
  }

  /** Different page numbers get different titles. */
  lemma ChatNumberTitleInjective(a: int, b: int)
    requires ChatNumberTitle(a) == ChatNumberTitle(b)
    ensures a == b
  {
    assert ChatNumberTitle(a)[6..] == IntToString(a);
    assert ChatNumberTitle(b)[6..] == IntToString(b);
    IntToStringInjective(a, b);
  }

  /** `strip('#')` only removes '#' at the ends, so "Chat #n" keeps its '#'. */
  lemma RecoveredTitleKeepsHash(n: int)
    ensures StripChars(ChatNumberTitle(n), {'#'}) == ChatNumberTitle(n)
  {
    var s := ChatNumberTitle(n);
    assert s[0] !in {'#'} && s[|s| - 1] !in {'#'};
    StripCharsKeeps(s, {'#'});
  }

  function FallbackPageTitle(pageNumber: int, pageTitle: PageTitleArg): string {
    if pageTitle.RecoveredChat? then StripChars(ChatNumberTitle(pageNumber), {'#'}) + " (Recovered)"
    else ChatNumberTitle(pageNumber)
  }

  function FallbackSidebarTitle(pageNumber: int, pageTitle: PageTitleArg): string {
    if pageTitle.GivenTitle? && pageTitle.title != "" then pageTitle.title else ChatNumberTitle(pageNumber)
  }

  /** A recovered chat falls back to "Chat #n (Recovered)" on the page and "Chat #n" in
      the sidebar; any other page falls back to "Chat #n", and its sidebar to the given
      title when there is one. */
  lemma FallbackTitles(n: int, pageTitle: PageTitleArg)
    ensures pageTitle.RecoveredChat? ==>
      FallbackPageTitle(n, pageTitle) == ChatNumberTitle(n) + " (Recovered)"
      && FallbackSidebarTitle(n, pageTitle) == ChatNumberTitle(n)
    ensures pageTitle.GivenTitle? ==> FallbackPageTitle(n, pageTitle) == ChatNumberTitle(n)
    ensures pageTitle.GivenTitle? && pageTitle.title != "" ==> FallbackSidebarTitle(n, pageTitle) == pageTitle.title
  {
    RecoveredTitleKeepsHash(n);
  }

  /** The title entries `AppPage.__init__` stores: a non-empty page title (never for a
      recovered chat) and a non-empty sidebar title. */
  function InitialTitles(st: PageState, sidebarTitle: string, pageTitle: PageTitleArg): PageState {
    var st1 := if pageTitle.GivenTitle? && pageTitle.title != "" then st["page_title" := Text(pageTitle.title)] else st;
    if sidebarTitle != "" then st1["sidebar_title" := Text(sidebarTitle)] else st1
  }

  /** What a new page shows: the titles it was given, else the fallbacks. */
  lemma NewPageTitles(n: int, sidebarTitle: string, pageTitle: PageTitleArg)
    ensures var st := InitialTitles(map[], sidebarTitle, pageTitle);
      TextOr(st, "page_title", FallbackPageTitle(n, pageTitle))
        == (if pageTitle.GivenTitle? && pageTitle.title != "" then pageTitle.title else FallbackPageTitle(n, pageTitle))
      && TextOr(st, "sidebar_title", FallbackSidebarTitle(n, pageTitle))
        == (if sidebarTitle != "" then sidebarTitle
            else if pageTitle.GivenTitle? && pageTitle.title != "" then pageTitle.title
            else ChatNumberTitle(n))
      && (pageTitle.RecoveredChat? ==> "page_title" !in st)
  {
  }

  /** The `chat_obj` setter: a chat already on the page lends its id to the new one,
      and the page's configs become the new chat's. */
  function StoreChat(st: PageState, newChat: ChatHandle): (PageState, ChatHandle) {
    var stored := if "chat_obj" in st && st["chat_obj"].ChatObject? then newChat.(id := st["chat_obj"].chat.id) else newChat;
    (st["chat_obj" := ChatObject(stored)]["chat_configs" := Configs(stored.configs)], stored)
  }

  /** The `chat_configs` setter: the configs are stored and the cached chat is dropped. */
  function StoreConfigs(st: PageState, c: ChatSession.ChatConfigs): PageState {
    st["chat_configs" := Configs(c)] - {"chat_obj"}
  }

  /** The `chat_configs` getter: the page's configs, copied from the app on first access. */
  function GetConfigs(st: PageState, appValues: map<string, StateValue>)
    : Result<(PageState, ChatSession.ChatConfigs), KeyError>
  {
    if "chat_configs" in st && st["chat_configs"].Configs? then Success((st, st["chat_configs"].configs))
    else if "chat_configs" in appValues && appValues["chat_configs"].Configs? then
      Success((st["chat_configs" := appValues["chat_configs"]], appValues["chat_configs"].configs))
    else Failure(KeyError("chat_configs"))
  }

  /** The `chat_obj` getter: the page's chat, made from the page's configs on first
      access; `freshId` is the id the new chat draws. */
  function GetChat(st: PageState, appValues: map<string, StateValue>, freshId: string)
    : Result<(PageState, ChatHandle), KeyError>
  {
    if "chat_obj" in st && st["chat_obj"].ChatObject? then Success((st, st["chat_obj"].chat))
    else
      match GetConfigs(st, appValues)
      case Failure(e) => Failure(e)
      case Success((st1, c)) => Success(StoreChat(st1, ChatHandle(freshId, c)))
  }

  /** Replacing the chat keeps the page's chat id; reading the chat back gives the stored
      chat, whose configs are now the page's configs. */
  lemma StoreChatKeepsId(st: PageState, newChat: ChatHandle, appValues: map<string, StateValue>, freshId: string)
    ensures var (st', stored) := StoreChat(st, newChat);
      stored.configs == newChat.configs
      && stored.id == (if "chat_obj" in st && st["chat_obj"].ChatObject? then st["chat_obj"].chat.id else newChat.id)
      && GetChat(st', appValues, freshId) == Success((st', stored))
      && GetConfigs(st', appValues) == Success((st', newChat.configs))
  {
  }

  /** After new configs are set, the next chat is a fresh one built from them. */
  lemma StoreConfigsRenewsChat(st: PageState, c: ChatSession.ChatConfigs, appValues: map<string, StateValue>, freshId: string)
    ensures GetChat(StoreConfigs(st, c), appValues, freshId).Success?
    ensures GetChat(StoreConfigs(st, c), appValues, freshId).value.1 == ChatHandle(freshId, c)
  {
  }

  /** The page needs the app's configs only while it holds neither configs nor a chat. */
  lemma GetChatFails(st: PageState, appValues: map<string, StateValue>, freshId: string)
    ensures GetChat(st, appValues, freshId).Failure? <==>
      !("chat_obj" in st && st["chat_obj"].ChatObject?)
      && !("chat_configs" in st && st["chat_configs"].Configs?)
      && !("chat_configs" in appValues && appValues["chat_configs"].Configs?)
  {
  }

  /** The page's state after a prompt: the chat is marked started, the user's prompt and
      the assistant's streamed reply are appended, and an untitled page whose history
      has grown past `MinHistoryLenForSummary` takes `summary` as both titles. An empty
      prompt changes nothing. */
  function PromptState(st: PageState, prompt: string, username: string, assistantName: string,
                       reply: seq<string>, summary: string): PageState
  {
    if prompt == "" then st
    else
      var h := HistoryOf(st)
        + [HistoryEntry("user", username, prompt), HistoryEntry("assistant", assistantName, Concat(reply))];
      var st1 := st["chat_started" := Flag(true)]["messages" := Messages(h)];
      if "page_title" !in st && |h| > MinHistoryLenForSummary then
        st1["page_title" := Text(summary)]["sidebar_title" := Text(summary)]
      else st1
  }

  /** A prompt appends exactly the user's message and then the assistant's, whose content
      is the whole streamed reply. */
  lemma PromptAppendsPair(st: PageState, prompt: string, username: string, assistantName: string,
                          reply: seq<string>, summary: string)
    ensures prompt != "" ==>
      HistoryOf(PromptState(st, prompt, username, assistantName, reply, summary))
        == HistoryOf(st) + [HistoryEntry("user", username, prompt), HistoryEntry("assistant", assistantName, Concat(reply))]
    ensures prompt == "" ==> PromptState(st, prompt, username, assistantName, reply, summary) == st
  {
  }

  /** A titled page keeps both of its titles. */
  lemma TitledPageKeepsTitles(st: PageState, prompt: string, username: string, assistantName: string,
                              reply: seq<string>, summary: string)
    requires "page_title" in st
    ensures var st' := PromptState(st, prompt, username, assistantName, reply, summary);
      "page_title" in st' && st'["page_title"] == st["page_title"]
      && ("sidebar_title" in st' <==> "sidebar_title" in st)
      && ("sidebar_title" in st ==> st'["sidebar_title"] == st["sidebar_title"])
  {
  }

  /** On an untitled page, the prompt that takes the history past the threshold titles
      the page, and the page and sidebar titles are then the same string. */
  lemma AutoTitleSetsBoth(st: PageState, prompt: string, username: string, assistantName: string,
                          reply: seq<string>, summary: string)
    requires "page_title" !in st && prompt != ""
    ensures var st' := PromptState(st, prompt, username, assistantName, reply, summary);
      ("page_title" in st' <==> |HistoryOf(st)| + 2 > MinHistoryLenForSummary)
      && ("page_title" in st' ==>
            TextOr(st', "page_title", "") == summary && TextOr(st', "sidebar_title", "") == summary)
  {
  }

  /** A fresh page is titled by its second exchange, not its first. */
  lemma AutoTitleOnSecondExchange(st: PageState, p1: string, p2: string, username: string, assistantName: string,
                                  r1: seq<string>, r2: seq<string>, s1: string, s2: string)
    requires "page_title" !in st && HistoryOf(st) == [] && p1 != "" && p2 != ""
    ensures var st1 := PromptState(st, p1, username, assistantName, r1, s1);
      var st2 := PromptState(st1, p2, username, assistantName, r2, s2);
      "page_title" !in st1 && TextOr(st2, "page_title", "") == s2 && TextOr(st2, "sidebar_title", "") == s2
  {
    var st1 := PromptState(st, p1, username, assistantName, r1, s1);
    assert |HistoryOf(st1)| == 2;
  }

  /** The app that owns the pages: its state and its two prompt queues. */
  class MultipageApp {
    const state: Session
    const continuousUserPromptQueue: PageQueue.SharedQueue<string>
    const textPromptQueue: PageQueue.SharedQueue<string>

    predicate Valid()
    {
      continuousUserPromptQueue != textPromptQueue
    }

    constructor(values: map<string, StateValue>)
      ensures Valid() && fresh(state) && state.values == values && state.pages == map[]
      ensures fresh(continuousUserPromptQueue) && fresh(textPromptQueue)
      ensures continuousUserPromptQueue.items == [] && textPromptQueue.items == []
    {
      state := new Session(values);
      continuousUserPromptQueue := new PageQueue.SharedQueue([]);
      textPromptQueue := new PageQueue.SharedQueue([]);
    }
  }

  class ChatBotPage {
    const app: MultipageApp
    const pageId: string
    const pageNumber: int
    const fallbackPageTitle: string
    const fallbackSidebarTitle: string

    /** The `state` property: the page's dictionary in the app's state. */
    function PageState(): PageState
      reads this, app, app.state
    {
      if pageId in app.state.pages then app.state.pages[pageId] else map[]
    }

    /** `AppPage.__init__` then `ChatBotPage.__init__`: the titles, then the chat passed in
        (through the setter) or the default chat (through the getter). */
    constructor(app: MultipageApp, pageId: string, chatObj: Option<ChatHandle>,
                sidebarTitle: string, pageTitle: PageTitleArg, freshChatId: string)
      requires pageId !in app.state.pages
      requires chatObj.None? ==> "chat_configs" in app.state.values && app.state.values["chat_configs"].Configs?
      modifies app.state
      ensures this.app == app && this.pageId == pageId
      ensures pageNumber == NCreatedPages(app.state.values) + 1
      ensures fallbackPageTitle == FallbackPageTitle(pageNumber, pageTitle)
      ensures fallbackSidebarTitle == FallbackSidebarTitle(pageNumber, pageTitle)
      ensures app.state.values == old(app.state.values)
      ensures var titles := InitialTitles(map[], sidebarTitle, pageTitle);
        app.state.pages == old(app.state.pages)[pageId :=
          if chatObj.Some? then StoreChat(titles, chatObj.value).0
          else GetChat(titles, app.state.values, freshChatId).value.0]
    {
      this.app := app;
      this.pageId := pageId;
      var n := NCreatedPages(app.state.values) + 1;
      pageNumber := n;
      if pageTitle.RecoveredChat? {
        fallbackPageTitle := StripChars(ChatNumberTitle(n), {'#'}) + " (Recovered)";
      } else {
        fallbackPageTitle := ChatNumberTitle(n);
      }
      fallbackSidebarTitle := FallbackSidebarTitle(n, pageTitle);
      new;
      var titles := InitialTitles(map[], sidebarTitle, pageTitle);
      var st := if chatObj.Some? then StoreChat(titles, chatObj.value).0
                else GetChat(titles, app.state.values, freshChatId).value.0;
      app.state.pages := app.state.pages[pageId := st];
    }

    /** The `title` property. */
    function Title(): string
      reads this, app, app.state
    {
      TextOr(PageState(), "page_title", fallbackPageTitle)
    }

    /** The `sidebar_title` property. */
    function SidebarTitle(): string
      reads this, app, app.state
    {
      TextOr(PageState(), "sidebar_title", fallbackSidebarTitle)
    }

    method SetTitle(value: string)
      modifies app.state
      ensures app.state.pages == old(app.state.pages)[pageId := old(PageState())["page_title" := Text(value)]]
      ensures app.state.values == old(app.state.values)
      ensures Title() == value && SidebarTitle() == old(SidebarTitle())
    {
      app.state.pages := app.state.pages[pageId := PageState()["page_title" := Text(value)]];
    }

    method SetSidebarTitle(value: string)
      modifies app.state
      ensures app.state.pages == old(app.state.pages)[pageId := old(PageState())["sidebar_title" := Text(value)]]
      ensures app.state.values == old(app.state.values)
      ensures SidebarTitle() == value && Title() == old(Title())
    {
      app.state.pages := app.state.pages[pageId := PageState()["sidebar_title" := Text(value)]];
    }

    /** The `chat_configs` getter. */
    method ChatConfigs() returns (result: Result<ChatSession.ChatConfigs, KeyError>)
      modifies app.state
      ensures app.state.values == old(app.state.values)
      ensures match GetConfigs(old(PageState()), app.state.values)
        case Success((st, c)) => result == Success(c) && app.state.pages == old(app.state.pages)[pageId := st]
        case Failure(e) => result == Failure(e) && app.state.pages == old(app.state.pages)
    {
      match GetConfigs(PageState(), app.state.values)
      case Success((st, c)) =>
        app.state.pages := app.state.pages[pageId := st];
        result := Success(c);
      case Failure(e) =>
        result := Failure(e);
    }

    /** The `chat_configs` setter. */
    method SetChatConfigs(c: ChatSession.ChatConfigs)
      modifies app.state
      ensures app.state.values == old(app.state.values)
      ensures app.state.pages == old(app.state.pages)[pageId := StoreConfigs(old(PageState()), c)]
    {
      app.state.pages := app.state.pages[pageId := StoreConfigs(PageState(), c)];
    }

    /** The `chat_obj` getter; `freshChatId` is the id a newly made chat draws. */
    method ChatObj(freshChatId: string) returns (result: Result<ChatHandle, KeyError>)
      modifies app.state
      ensures app.state.values == old(app.state.values)
      ensures match GetChat(old(PageState()), app.state.values, freshChatId)
        case Success((st, chat)) => result == Success(chat) && app.state.pages == old(app.state.pages)[pageId := st]
        case Failure(e) => result == Failure(e) && app.state.pages == old(app.state.pages)
    {
      match GetChat(PageState(), app.state.values, freshChatId)
      case Success((st, chat)) =>
        app.state.pages := app.state.pages[pageId := st];
        result := Success(chat);
      case Failure(e) =>
        result := Failure(e);
    }

    /** The `chat_obj` setter. */
    method SetChatObj(newChat: ChatHandle) returns (stored: ChatHandle)
      modifies app.state
      ensures app.state.values == old(app.state.values)
      ensures (app.state.pages, stored) == (old(app.state.pages)[pageId := StoreChat(old(PageState()), newChat).0],
                                            StoreChat(old(PageState()), newChat).1)
    {
      var (st, s) := StoreChat(PageState(), newChat);
      app.state.pages := app.state.pages[pageId := st];
      stored := s;
    }

    /** The `chat_history` getter. */
    method ChatHistory() returns (history: seq<HistoryEntry>)
      modifies app.state
      ensures app.state.values == old(app.state.values)
      ensures history == HistoryOf(old(PageState()))
      ensures app.state.pages == old(app.state.pages)[pageId := WithHistory(old(PageState()))]
    {
      var st := WithHistory(PageState());
      app.state.pages := app.state.pages[pageId := st];
      history := HistoryOf(st);
    }

    /** What rendering does with a prompt: the reply chunks are accumulated into the
        assistant's message, the history and titles follow `PromptState`, and this page's
        entries are removed from both prompt queues. `summaryReply` is the model's answer
        to `SummaryPrompt`. */
    method RenderPrompt(prompt: string, username: string, assistantName: string,
                        replyChunks: seq<string>, summaryReply: seq<string>)
      requires app.Valid()
      modifies app.state, app.continuousUserPromptQueue, app.textPromptQueue
      ensures app.state.values == old(app.state.values)
      ensures app.state.pages == if prompt == "" then old(app.state.pages)
        else old(app.state.pages)[pageId :=
          PromptState(old(PageState()), prompt, username, assistantName, replyChunks, Concat(summaryReply))]
      ensures prompt != "" ==>
        app.continuousUserPromptQueue.items == PageQueue.FromOtherPages(old(app.continuousUserPromptQueue.items), pageId)
        && app.textPromptQueue.items == PageQueue.FromOtherPages(old(app.textPromptQueue.items), pageId)
      ensures prompt == "" ==>
        app.continuousUserPromptQueue.items == old(app.continuousUserPromptQueue.items)
        && app.textPromptQueue.items == old(app.textPromptQueue.items)
    {
      if prompt == "" {
        return;
      }
      var st0 := PageState();
      var st := st0["chat_started" := Flag(true)];
      assert HistoryOf(st) == HistoryOf(st0);
      st := AppendHistory(st, HistoryEntry("user", username, prompt));
      var fullResponse := "";
      for i := 0 to |replyChunks|
        invariant fullResponse == Concat(replyChunks[..i])
      {
        assert replyChunks[..i + 1][..i] == replyChunks[..i];
        fullResponse := fullResponse + replyChunks[i];
      }
      assert replyChunks[..|replyChunks|] == replyChunks;
      st := AppendHistory(st, HistoryEntry("assistant", assistantName, fullResponse));
      var h := HistoryOf(st0) + [HistoryEntry("user", username, prompt), HistoryEntry("assistant", assistantName, fullResponse)];
      assert HistoryOf(st) == h;
      assert st == st0["chat_started" := Flag(true)]["messages" := Messages(h)];
      if "page_title" !in st && |HistoryOf(st)| > MinHistoryLenForSummary {
        var title := Concat(summaryReply);
        st := st["page_title" := Text(title)];
        st := st["sidebar_title" := Text(title)];
      }
      app.state.pages := app.state.pages[pageId := st];
      var _ := PageQueue.FilterPageInfoFromQueue(pageId, app.continuousUserPromptQueue);
      var _ := PageQueue.FilterPageInfoFromQueue(pageId, app.textPromptQueue);
    }
  }
}
