/** The chat page of the earlier web app (gpt_buddy_bot/app/app_page_templates.py):
    its page state in the global session state, default titles, configs read from the
    options file on first access, the chat object, and what a prompt does to the page:
    one user and one assistant message, then a one-off title summarised by the chat
    from every message's content. */
module BuddyPages {
  import opened Text
  import opened SessionState
  import ChatSession

  /** A chat history longer than this gets a title. */
  const MinHistoryLenForSummary: nat := 3

  const SummaryPreamble: string := "Summarize the following msg exchange in max 4 words:\n"

  /** What separates the messages' contents in the summary prompt. */
  const ContentSeparator: string := "\n\U{1F}"

  /** The page's fallback title: the app's name and a speech balloon. */
  function PageBanner(appName: string): string {
    appName + "    :speech_balloon:"
  }

  /** `f"Chat {n}"`, the sidebar default of a chat page. */
  function ChatNumberTitle(n: int): string {
    "Chat " + IntToString(n)
  }

  /** The prompt that asks the chat for a title: the preamble, then every message's
      content, separated by `ContentSeparator`. */
  function SummaryPrompt(h: seq<HistoryEntry>): string {
    SummaryPreamble + Join(ContentSeparator, Contents(h))
  }

  /** The first title is asked for with the contents of the first four messages, in
      order and separated. */
  lemma SummaryPromptOfFourMessages(h: seq<HistoryEntry>)
    requires |h| == 4
    ensures SummaryPrompt(h) == SummaryPreamble + h[0].content + ContentSeparator + h[1].content
      + ContentSeparator + h[2].content + ContentSeparator + h[3].content
  {
    var c, sep := Contents(h), ContentSeparator;
    assert c[1..][1..][1..] == [c[3]];
    assert Join(sep, c[1..][1..]) == c[2] + sep + c[3];
    assert Join(sep, c[1..]) == c[1] + sep + (c[2] + sep + c[3]);
  }

  /** The `chat_configs` getter: the page's configs, loaded from the options file on
      first access. */
  function GetConfigs(st: PageState, configsFile: ChatSession.ChatConfigs): (PageState, ChatSession.ChatConfigs) {
    if "chat_configs" in st && st["chat_configs"].Configs? then (st, st["chat_configs"].configs)
    else (st["chat_configs" := Configs(configsFile)], configsFile)
  }

  /** The `chat_obj` setter: the page's chat and its configs are replaced. */
  function StoreChat(st: PageState, chat: ChatHandle): PageState {
    st["chat_obj" := ChatObject(chat)]["chat_configs" := Configs(chat.configs)]
  }

  /** The `chat_obj` getter: the page's chat, made from the page's configs on first
      access; `freshId` is the id the new chat draws. */
  function GetChat(st: PageState, configsFile: ChatSession.ChatConfigs, freshId: string): (PageState, ChatHandle) {
    if "chat_obj" in st && st["chat_obj"].ChatObject? then (st, st["chat_obj"].chat)
    else
      var (st1, c) := GetConfigs(st, configsFile);
      (StoreChat(st1, ChatHandle(freshId, c)), ChatHandle(freshId, c))
  }

  /** The options file is read only while the page holds no configs; afterwards the page's
      own configs are used. */
  lemma ConfigsFileReadOnce(st: PageState, configsFile: ChatSession.ChatConfigs, other: ChatSession.ChatConfigs)
    ensures var (st1, c) := GetConfigs(st, configsFile);
      c == (if "chat_configs" in st && st["chat_configs"].Configs? then st["chat_configs"].configs else configsFile)
      && GetConfigs(st1, other) == (st1, c)
  {
  }

  /** A chat that is set is the chat read back, its configs become the page's, and,
      unlike the later app, it keeps its own id. */
  lemma StoredChatIsRead(st: PageState, chat: ChatHandle, configsFile: ChatSession.ChatConfigs, freshId: string)
    ensures GetChat(StoreChat(st, chat), configsFile, freshId) == (StoreChat(st, chat), chat)
    ensures GetConfigs(StoreChat(st, chat), configsFile).1 == chat.configs
  {
  }

  /** A page without a chat makes one from its configs, and keeps it. */
  lemma NewChatUsesPageConfigs(st: PageState, configsFile: ChatSession.ChatConfigs, freshId: string, laterId: string)
    requires !("chat_obj" in st && st["chat_obj"].ChatObject?)
    ensures var (st1, chat) := GetChat(st, configsFile, freshId);
      chat == ChatHandle(freshId, GetConfigs(st, configsFile).1)
      && GetChat(st1, configsFile, laterId) == (st1, chat)
  {
  }

  /** The page's state after a prompt: the user's prompt and the assistant's streamed
      reply are appended and, on an untitled page whose history has grown past
      `MinHistoryLenForSummary`, the chat's answer to the summary prompt becomes both
      titles. An empty prompt changes nothing. */
  function PromptState(st: PageState, prompt: string, username: string, assistantName: string,
                       reply: seq<string>, respondSystem: string -> seq<string>): PageState
  {
    if prompt == "" then st
    else
      var h := HistoryOf(st)
        + [HistoryEntry("user", username, prompt), HistoryEntry("assistant", assistantName, Concat(reply))];
      var st1 := st["messages" := Messages(h)];
      if "page_title" !in st && |h| > MinHistoryLenForSummary then
        var title := Concat(respondSystem(SummaryPrompt(h)));
        st1["page_title" := Text(title)]["sidebar_title" := Text(title)]
      else st1
  }

  /** A prompt appends exactly the user's message and then the assistant's, whose content
      is the whole streamed reply, and leaves a titled page's titles alone. */
  lemma PromptAppendsPair(st: PageState, prompt: string, username: string, assistantName: string,
                          reply: seq<string>, respondSystem: string -> seq<string>)
    requires prompt != ""
    ensures var st' := PromptState(st, prompt, username, assistantName, reply, respondSystem);
      HistoryOf(st') == HistoryOf(st)
        + [HistoryEntry("user", username, prompt), HistoryEntry("assistant", assistantName, Concat(reply))]
      && ("page_title" in st ==>
            "page_title" in st' && st'["page_title"] == st["page_title"]
            && ("sidebar_title" in st' <==> "sidebar_title" in st)
            && ("sidebar_title" in st ==> st'["sidebar_title"] == st["sidebar_title"]))
  {
  }

  /** A fresh page is titled by its second exchange, with the chat's summary of the four
      messages, and the sidebar shows the same title. */
  lemma AutoTitleOnSecondExchange(st: PageState, p1: string, p2: string, username: string, assistantName: string,
                                  r1: seq<string>, r2: seq<string>, respondSystem: string -> seq<string>)
    requires "page_title" !in st && HistoryOf(st) == [] && p1 != "" && p2 != ""
    ensures var st1 := PromptState(st, p1, username, assistantName, r1, respondSystem);
      var st2 := PromptState(st1, p2, username, assistantName, r2, respondSystem);
      var title := Concat(respondSystem(SummaryPrompt(HistoryOf(st2))));
      "page_title" !in st1 && |HistoryOf(st2)| == 4
      && TextOr(st2, "page_title", "") == title && TextOr(st2, "sidebar_title", "") == title
  {
    var st1 := PromptState(st, p1, username, assistantName, r1, respondSystem);
    var h1 := [HistoryEntry("user", username, p1), HistoryEntry("assistant", assistantName, Concat(r1))];
    assert HistoryOf(st) + h1 == h1;
    assert st1 == st["messages" := Messages(h1)];
    var h2 := h1 + [HistoryEntry("user", username, p2), HistoryEntry("assistant", assistantName, Concat(r2))];
    var title := Concat(respondSystem(SummaryPrompt(h2)));
    var st2 := PromptState(st1, p2, username, assistantName, r2, respondSystem);
    assert HistoryOf(st1) == h1;
    assert st2 == st1["messages" := Messages(h2)]["page_title" := Text(title)]["sidebar_title" := Text(title)];
    assert HistoryOf(st2) == h2;
  }

  class ChatBotPage {
    /** `st.session_state`, shared by all pages. */
    const session: Session
    /** `GeneralConstants.APP_NAME`. */
    const appName: string
    /** The configs pickled in the file named by the last command-line argument. */
    const configsFile: ChatSession.ChatConfigs
    const pageId: string
    const pageNumber: int
    const fallbackPageTitle: string
    const fallbackSidebarTitle: string

    /** The `state` property: the page's dictionary in the session state. */
    function PageState(): PageState
      reads this, session
    {
      if pageId in session.pages then session.pages[pageId] else map[]
    }

    /** `AppPage.__init__` then `ChatBotPage.__init__`. The base class reads the sidebar
        title (creating the page's state) only when no page title is given; the chat
        page then overrides both fallbacks, so the page title argument is never shown. */
    constructor(session: Session, appName: string, configsFile: ChatSession.ChatConfigs,
                pageId: string, sidebarTitle: string, pageTitle: string)
      requires pageId !in session.pages
      modifies session
      ensures this.session == session && this.appName == appName && this.configsFile == configsFile
      ensures this.pageId == pageId
      ensures pageNumber == NCreatedPages(session.values) + 1
      ensures fallbackPageTitle == PageBanner(appName)
      ensures fallbackSidebarTitle == if sidebarTitle != "" then sidebarTitle else ChatNumberTitle(pageNumber)
      ensures session.values == old(session.values)
      ensures session.pages == if pageTitle == "" then old(session.pages)[pageId := map[]] else old(session.pages)
      ensures Title() == PageBanner(appName)
      ensures SidebarTitle() == if sidebarTitle != "" then sidebarTitle else ChatNumberTitle(pageNumber)
    {
      this.session := session;
      this.appName := appName;
      this.configsFile := configsFile;
      this.pageId := pageId;
      var n := NCreatedPages(session.values) + 1;
      pageNumber := n;
      fallbackPageTitle := PageBanner(appName);
      fallbackSidebarTitle := if sidebarTitle != "" then sidebarTitle else ChatNumberTitle(n);
      new;
      if pageTitle == "" {
        session.pages := session.pages[pageId := map[]];
      }
    }

    /** The `title` property. */
    function Title(): string
      reads this, session
    {
      TextOr(PageState(), "page_title", fallbackPageTitle)
    }

    /** The `sidebar_title` property. */
    function SidebarTitle(): string
      reads this, session
    {
      TextOr(PageState(), "sidebar_title", fallbackSidebarTitle)
    }

    method SetTitle(value: string)
      modifies session
      ensures session.pages == old(session.pages)[pageId := old(PageState())["page_title" := Text(value)]]
      ensures session.values == old(session.values)
      ensures Title() == value && SidebarTitle() == old(SidebarTitle())
    {
      session.pages := session.pages[pageId := PageState()["page_title" := Text(value)]];
    }

    method SetSidebarTitle(value: string)
      modifies session
      ensures session.pages == old(session.pages)[pageId := old(PageState())["sidebar_title" := Text(value)]]
      ensures session.values == old(session.values)
      ensures SidebarTitle() == value && Title() == old(Title())
    {
      session.pages := session.pages[pageId := PageState()["sidebar_title" := Text(value)]];
    }

    /** The `chat_configs` getter. */
    method ChatConfigs() returns (c: ChatSession.ChatConfigs)
      modifies session
      ensures session.values == old(session.values)
      ensures (session.pages, c) == (old(session.pages)[pageId := GetConfigs(old(PageState()), configsFile).0],
                                     GetConfigs(old(PageState()), configsFile).1)
    {
      var (st, configs) := GetConfigs(PageState(), configsFile);
      session.pages := session.pages[pageId := st];
      c := configs;
    }

    /** The `chat_obj` getter; `freshChatId` is the id a newly made chat draws. */
    method ChatObj(freshChatId: string) returns (chat: ChatHandle)
      modifies session
      ensures session.values == old(session.values)
      ensures (session.pages, chat) == (old(session.pages)[pageId := GetChat(old(PageState()), configsFile, freshChatId).0],
                                        GetChat(old(PageState()), configsFile, freshChatId).1)
    {
      var (st, c) := GetChat(PageState(), configsFile, freshChatId);
      session.pages := session.pages[pageId := st];
      chat := c;
    }

    /** The `chat_obj` setter. */
    method SetChatObj(chat: ChatHandle)
      modifies session
      ensures session.values == old(session.values)
      ensures session.pages == old(session.pages)[pageId := StoreChat(old(PageState()), chat)]
    {
      session.pages := session.pages[pageId := StoreChat(PageState(), chat)];
    }

    /** The `chat_history` getter. */
    method ChatHistory() returns (history: seq<HistoryEntry>)
      modifies session
      ensures session.values == old(session.values)
      ensures history == HistoryOf(old(PageState()))
      ensures session.pages == old(session.pages)[pageId := WithHistory(old(PageState()))]
    {
      var st := WithHistory(PageState());
      session.pages := session.pages[pageId := st];
      history := HistoryOf(st);
    }

    /** `render`: the input placeholder names the page's chat (making it if needed), and
        a prompt is then handled by `HandlePrompt` with the chat's user and assistant names. */
    method Render(prompt: string, freshChatId: string, replyChunks: seq<string>,
                  respondSystem: string -> seq<string>)
      modifies session
      ensures session.values == old(session.values)
      ensures var (st1, chat) := GetChat(old(PageState()), configsFile, freshChatId);
        session.pages == old(session.pages)[pageId :=
          PromptState(st1, prompt, chat.configs.username, chat.configs.assistantName, replyChunks, respondSystem)]
    {
      var chat := ChatObj(freshChatId);
      HandlePrompt(prompt, chat.configs.username, chat.configs.assistantName, replyChunks, respondSystem);
    }

    /** The prompt branch of `render`: a non-empty prompt is appended with the user's name,
        the reply chunks are accumulated into the assistant's message, and an untitled page
        with more than `MinHistoryLenForSummary` messages is titled with `respondSystem`'s
        answer to the summary prompt, the sidebar title being read back from the title. */
    method HandlePrompt(prompt: string, username: string, assistantName: string, replyChunks: seq<string>,
                        respondSystem: string -> seq<string>)
      modifies session
      ensures session.values == old(session.values)
      ensures session.pages == old(session.pages)[pageId :=
        PromptState(old(PageState()), prompt, username, assistantName, replyChunks, respondSystem)]
    {
      var st0 := PageState();
      if prompt == "" {
        session.pages := session.pages[pageId := st0];
        return;
      }
      var st := AppendHistory(st0, HistoryEntry("user", username, prompt));
      var fullResponse := "";
      for i := 0 to |replyChunks|
        invariant fullResponse == Concat(replyChunks[..i])
      {
        assert replyChunks[..i + 1][..i] == replyChunks[..i];
        fullResponse := fullResponse + replyChunks[i];
      }
      assert replyChunks[..|replyChunks|] == replyChunks;
      st := AppendHistory(st, HistoryEntry("assistant", assistantName, fullResponse));
      var h := HistoryOf(st0)
        + [HistoryEntry("user", username, prompt), HistoryEntry("assistant", assistantName, fullResponse)];
      assert HistoryOf(st) == h;
      assert st == st0["messages" := Messages(h)];
      if "page_title" !in st && |HistoryOf(st)| > MinHistoryLenForSummary {
        st := st["page_title" := Text(Concat(respondSystem(SummaryPrompt(HistoryOf(st)))))];
        st := st["sidebar_title" := Text(TextOr(st, "page_title", fallbackPageTitle))];
      }
      session.pages := session.pages[pageId := st];
    }
  }
}
