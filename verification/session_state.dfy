/** The string-keyed state of a streamlit session as the page classes use it: named
    entries (such as "n_created_pages" or "chat_configs") and, under each page's id,
    that page's own dictionary. In the source both kinds of key live in one dict;
    here they are two maps. */
module SessionState {
  import opened Text
  import ChatSession

  /** One message of a page's chat history. */
  datatype HistoryEntry = HistoryEntry(role: string, name: string, content: string)

  /** A chat object as the pages see it: its id and its configs. */
  datatype ChatHandle = ChatHandle(id: string, configs: ChatSession.ChatConfigs)

  /** The values the pages store. */
  datatype StateValue =
    | Text(text: string)
    | Count(count: int)
    | Flag(flag: bool)
    | Configs(configs: ChatSession.ChatConfigs)
    | ChatObject(chat: ChatHandle)
    | Messages(messages: seq<HistoryEntry>)

  type PageState = map<string, StateValue>

  class Session {
    var values: map<string, StateValue>
    var pages: map<string, PageState>

    constructor(values: map<string, StateValue>)
      ensures this.values == values && pages == map[]
    {
      this.values := values;
      pages := map[];
    }
  }

  /** `state.get(key, fallback)` for an entry holding text. */
  function TextOr(st: PageState, key: string, fallback: string): (r: string)
    ensures key in st && st[key].Text? ==> r == st[key].text
    ensures key !in st ==> r == fallback
  {
    if key in st && st[key].Text? then st[key].text else fallback
  }

  /** `state.get("n_created_pages", 0)`. */
  function NCreatedPages(values: map<string, StateValue>): int {
    if "n_created_pages" in values && values["n_created_pages"].Count? then values["n_created_pages"].count else 0
  }

  /** The page's history, `[]` before the first access creates it. */
  function HistoryOf(st: PageState): seq<HistoryEntry> {
    if "messages" in st && st["messages"].Messages? then st["messages"].messages else []
  }

  /** The `chat_history` getter: the "messages" entry, created empty on first access. */
  function WithHistory(st: PageState): (r: PageState)
    ensures "messages" in r && r["messages"] == Messages(HistoryOf(st))
    ensures "messages" in st && st["messages"].Messages? ==> r == st
    ensures forall k :: k in st && k != "messages" ==> k in r && r[k] == st[k]
    ensures forall k :: k in r && k != "messages" ==> k in st
  {
    if "messages" in st && st["messages"].Messages? then st else st["messages" := Messages([])]
  }

  /** The history getter returns the same history on every access after the first. */
  lemma HistoryGetterStable(st: PageState)
    ensures WithHistory(WithHistory(st)) == WithHistory(st)
    ensures HistoryOf(WithHistory(st)) == HistoryOf(st)
  {
  }

  /** The history of a page after `chat_history.append(e)`. */
  function AppendHistory(st: PageState, e: HistoryEntry): (r: PageState)
    ensures HistoryOf(r) == HistoryOf(st) + [e]
    ensures forall k :: k in st && k != "messages" ==> k in r && r[k] == st[k]
    ensures forall k :: k in r && k != "messages" ==> k in st
  {
    st["messages" := Messages(HistoryOf(st) + [e])]
  }

  /** The contents of the messages, in order. */
  function Contents(h: seq<HistoryEntry>): (r: seq<string>)
    ensures |r| == |h| && forall k :: 0 <= k < |h| ==> r[k] == h[k].content
  {
    if h == [] then [] else Contents(h[..|h| - 1]) + [h[|h| - 1].content]
  }
}
