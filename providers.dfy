/** The provider lookups and URL predicates of the background service
    (TreeManager/background-simple.js): which hosts are AI chat providers,
    which URLs look like an open conversation, and which start page and
    display name belong to an `llm` key. URL parsing is not modelled: a URL
    comes with the result of `new URL(text)` already computed. */
module Providers {
  import opened Wrappers
  import opened Strings

  /** The parts of a parsed URL the extension reads. */
  datatype UrlParts = UrlParts(href: string, hostname: string, pathname: string)

  /** A URL as the extension receives it: its text and the outcome of
      `new URL(text)`, `None` when the constructor throws. */
  datatype Url = Url(text: string, parsed: Option<UrlParts>)

  /** The URL Standard never parses the empty string; every URL the browser
      hands over has this property. */
  predicate WellFormed(u: Url) {
    u.text == "" ==> u.parsed.None?
  }

  datatype Provider = OpenAI | Anthropic | Google | Perplexity | XAI | DeepSeek

  /** The seven hosts the extension recognises, in the order the source lists them. */
  const VALID_HOSTS: seq<string> := [
    "chat.openai.com",
    "chatgpt.com",
    "claude.ai",
    "gemini.google.com",
    "www.perplexity.ai",
    "grok.x.ai",
    "chat.deepseek.com"
  ]

  /** The provider a hostname belongs to, following the chain of hostname
      tests that both `isConversationUrl` and the page script use. */
  function ProviderOfHost(h: string): Option<Provider> {
    if h == "chatgpt.com" || h == "chat.openai.com" then Some(OpenAI)
    else if h == "claude.ai" then Some(Anthropic)
    else if h == "gemini.google.com" then Some(Google)
    else if h == "www.perplexity.ai" then Some(Perplexity)
    else if h == "grok.x.ai" then Some(XAI)
    else if h == "chat.deepseek.com" then Some(DeepSeek)
    else None
  }

  /** The host list and the provider chain recognise the same hosts. */
  lemma ValidHostIffProvider(h: string)
    ensures h in VALID_HOSTS <==> ProviderOfHost(h).Some?
  {
  }

  /** `isValidLLMUrl` of the background service: the URL parses and its
      hostname is one of the seven. */
  predicate IsValidLLMUrl(u: Url) {
    match u.parsed
    case None => false
    case Some(p) => p.hostname in VALID_HOSTS
  }

  /** `isConversationUrl`: an empty or unparseable URL is not a conversation;
      otherwise each provider has its own path test (Gemini also accepts
      any URL text with a fragment). */
  predicate IsConversationUrl(u: Url) {
    if u.text == "" then false
    else match u.parsed
      case None => false
      case Some(p) =>
        match ProviderOfHost(p.hostname)
        case None => false
        case Some(OpenAI) => Contains(p.pathname, "/c/") || Contains(p.pathname, "/chat")
        case Some(Anthropic) => Contains(p.pathname, "/chat/") || Contains(p.pathname, "/conversation/")
        case Some(Google) => Contains(p.pathname, "/app") || p.pathname == "/app" || Contains(u.text, "#")
        case Some(Perplexity) => Contains(p.pathname, "/search/") || |p.pathname| > 1
        case Some(XAI) => Contains(p.pathname, "/chat") || |p.pathname| > 1
        case Some(DeepSeek) => Contains(p.pathname, "/chat") || |p.pathname| > 1
  }

  /** Every conversation URL is on a recognised host, and nothing unparseable
      or empty is a conversation. */
  lemma ConversationUrlIsValid(u: Url)
    ensures IsConversationUrl(u) ==> IsValidLLMUrl(u)
    ensures u.parsed.None? || u.text == "" ==> !IsConversationUrl(u)
  {
    if IsConversationUrl(u) {
      ValidHostIffProvider(u.parsed.value.hostname);
    }
  }

  /** A Claude conversation path is a conversation; the settings page and the
      empty URL are not. */
  lemma ClaudeConversationExamples()
    ensures IsConversationUrl(Url("https://claude.ai/chat/abc",
      Some(UrlParts("https://claude.ai/chat/abc", "claude.ai", "/chat/abc"))))
    ensures !IsConversationUrl(Url("https://claude.ai/settings",
      Some(UrlParts("https://claude.ai/settings", "claude.ai", "/settings"))))
    ensures !IsConversationUrl(Url("", None))
  {
    assert OccursAt("/chat/abc", "/chat/", 0);
    ContainsIff("/chat/abc", "/chat/");
    TwoSlashesNotContained("/settings", "/chat/", 5);
    TwoSlashesNotContained("/settings", "/conversation/", 13);
  }

  /** `tabs.onUpdated` calls `checkPendingLinks` when the tab has a URL on a
      recognised host that is a conversation URL, or when the title changed
      on a Gemini app page. */
  predicate TabUpdateTriggersCheck(tabUrl: Url, changedTitle: Option<string>) {
    tabUrl.text != "" && IsValidLLMUrl(tabUrl)
    && (IsConversationUrl(tabUrl) || (Truthy(changedTitle) && Contains(tabUrl.text, "gemini.google.com/app")))
  }

  /** A tab update triggers a check only on a recognised host; without a title
      change it triggers exactly on conversation URLs. */
  lemma TabUpdateTrigger(tabUrl: Url, changedTitle: Option<string>)
    ensures TabUpdateTriggersCheck(tabUrl, changedTitle) ==> tabUrl.parsed.Some? && ProviderOfHost(tabUrl.parsed.value.hostname).Some?
    ensures !Truthy(changedTitle) ==> (TabUpdateTriggersCheck(tabUrl, changedTitle) <==> IsConversationUrl(tabUrl))
  {
    ConversationUrlIsValid(tabUrl);
    if tabUrl.parsed.Some? {
      ValidHostIffProvider(tabUrl.parsed.value.hostname);
    }
  }

  /** The start page opened for each `llm` key (`getLLMUrl`). */
  const LLM_URLS: map<string, string> := map[
    "openai" := "https://chatgpt.com/",
    "anthropic" := "https://claude.ai/chat/",
    "google" := "https://gemini.google.com/app",
    "perplexity" := "https://www.perplexity.ai/",
    "xai" := "https://grok.x.ai/",
    "deepseek" := "https://chat.deepseek.com/"
  ]

  /** The display name stored with a chat (`getLLMName`). */
  const LLM_NAMES: map<string, string> := map[
    "openai" := "OpenAI GPT",
    "anthropic" := "Anthropic Claude",
    "google" := "Google Gemini",
    "perplexity" := "Perplexity",
    "xai" := "xAI Grok",
    "deepseek" := "DeepSeek"
  ]

  const DEFAULT_LLM_URL := "https://chatgpt.com/"
  const DEFAULT_LLM_NAME := "OpenAI GPT"

  /** `getLLMUrl`: unknown keys fall back to ChatGPT. */
  function LLMUrl(llm: string): string {
    if llm in LLM_URLS then LLM_URLS[llm] else DEFAULT_LLM_URL
  }

  /** `getLLMName`: unknown keys fall back to OpenAI GPT. */
  function LLMName(llm: string): string {
    if llm in LLM_NAMES then LLM_NAMES[llm] else DEFAULT_LLM_NAME
  }

  /** Both lookups are total over the same six keys and fall back to the
      OpenAI entry for every other key, so a name and a start page always
      describe the same provider. */
  lemma LLMLookups(llm: string)
    ensures LLM_URLS.Keys == LLM_NAMES.Keys
    ensures LLMUrl(llm) in LLM_URLS.Values && LLMName(llm) in LLM_NAMES.Values
    ensures llm !in LLM_URLS ==> LLMUrl(llm) == LLM_URLS["openai"] && LLMName(llm) == LLM_NAMES["openai"]
    ensures LLMName("google") == "Google Gemini"
  {
    assert "openai" in LLM_URLS;
  }

  /** The parse of each start page, written out. */
  const START_PAGES: map<string, UrlParts> := map[
    "https://chatgpt.com/" := UrlParts("https://chatgpt.com/", "chatgpt.com", "/"),
    "https://claude.ai/chat/" := UrlParts("https://claude.ai/chat/", "claude.ai", "/chat/"),
    "https://gemini.google.com/app" := UrlParts("https://gemini.google.com/app", "gemini.google.com", "/app"),
    "https://www.perplexity.ai/" := UrlParts("https://www.perplexity.ai/", "www.perplexity.ai", "/"),
    "https://grok.x.ai/" := UrlParts("https://grok.x.ai/", "grok.x.ai", "/"),
    "https://chat.deepseek.com/" := UrlParts("https://chat.deepseek.com/", "chat.deepseek.com", "/")
  ]

  function StartPage(llm: string): Url {
    var text := LLMUrl(llm);
    Url(text, if text in START_PAGES then Some(START_PAGES[text]) else None)
  }

  /** The tab opened for any `llm` lands on a recognised host, so its updates
      reach `checkPendingLinks`. The Claude and Gemini start pages already
      pass `isConversationUrl`, so the first update of such a tab links the
      pending item to the start page itself; the other four do not. */
  lemma StartPagesAreRecognised(llm: string)
    ensures IsValidLLMUrl(StartPage(llm))
    ensures IsConversationUrl(StartPage(llm)) <==> llm == "anthropic" || llm == "google"
  {
    var u := StartPage(llm);
    assert u.parsed.Some?;
    var path := u.parsed.value.pathname;
    if llm == "anthropic" {
      assert OccursAt("/chat/", "/chat/", 0);
      ContainsIff("/chat/", "/chat/");
    } else if llm == "google" {
      assert OccursAt("/app", "/app", 0);
      ContainsIff("/app", "/app");
    } else {
      assert path == "/";
      ContainsIff("/", "/c/");
      ContainsIff("/", "/chat");
      ContainsIff("/", "/search/");
    }
  }
}
