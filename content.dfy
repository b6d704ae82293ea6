/** The content script (TreeManager/content.js): the decisions it makes over
    a snapshot of the page it runs in. DOM queries become the sequences of
    candidate texts they would visit, in selector order; the clock and
    `hasGeminiConversation` become fields of the snapshot. */
module Content {
  import opened Wrappers
  import opened Strings
  import opened Seqs
  import opened Records
  import Store

  /** An element the Gemini message cascade looks at: its `textContent` and,
      for form fields, its `value`. */
  datatype Field = Field(textContent: Option<string>, value: Option<string>)

  /** What the script can see. `headings` are the `textContent`s the host's
      title helper visits (every match of each selector for ChatGPT and
      Gemini, the first match of each selector for the others); `messages`
      are the first match of each Gemini message selector; `previews` the
      first match of each preview selector. */
  datatype Page = Page(
    href: string,
    hostname: string,
    pathname: string,
    documentTitle: string,
    headings: seq<Option<string>>,
    messages: seq<Field>,
    previews: seq<Option<string>>,
    hasGeminiConversation: bool,
    localeTime: string)

  /** `x?.trim()` */
  function TrimOpt(o: Option<string>): Option<string> {
    match o
    case None => None
    case Some(t) => Some(Trim(t))
  }

  function Trimmed(cands: seq<Option<string>>): seq<Option<string>> {
    Map(cands, TrimOpt)
  }

  /** The first candidate the predicate accepts. Every acceptance predicate
      below demands a truthy text, so a match is always `Some`. */
  function FirstText(cands: seq<Option<string>>, accept: Option<string> -> bool): Option<string> {
    match Find(cands, accept)
    case None => None
    case Some(t) => t
  }

  /** The cascades try the candidates in order: the chosen text is the first
      accepted one, and no candidate is chosen when none is accepted. */
  lemma FirstTextIsFirst(cands: seq<Option<string>>, accept: Option<string> -> bool, i: nat)
    requires i < |cands| && accept(cands[i]) && forall j :: 0 <= j < i ==> !accept(cands[j])
    ensures FirstText(cands, accept) == cands[i]
  {
    FindIsFirst(cands, accept, i);
  }

  // ---------------------------------------------------------------------
  // Titles

  /** ChatGPT's heading test: a truthy text other than the product name,
      longer than 3 and shorter than 200 characters. */
  function ChatGPTHeading(): Option<string> -> bool {
    (t: Option<string>) => Truthy(t) && t.value != "ChatGPT" && 3 < |t.value| < 200
  }

  /** The test of the Claude, Perplexity, Grok and DeepSeek helpers. */
  function NamedHeading(name: string): Option<string> -> bool {
    (t: Option<string>) => Truthy(t) && t.value != name && |t.value| > 3
  }

  function GeminiHeading(): Option<string> -> bool {
    (t: Option<string>) => Truthy(t) && t.value != "Gemini" && 3 < |t.value| < 200
      && !Contains(t.value, "Google AI") && !Contains(t.value, "Sign in")
  }

  /** `getChatGPTTitle`: the first accepted heading, otherwise the document
      title unless it is the bare product name. */
  function ChatGPTTitle(p: Page): Option<string> {
    var h := FirstText(Trimmed(p.headings), ChatGPTHeading());
    if h.Some? then h
    else if p.documentTitle != "ChatGPT" then Some(p.documentTitle) else None
  }

  /** `getClaudeTitle`, `getPerplexityTitle`, `getGrokTitle`,
      `getDeepSeekTitle`: the same cascade with the product's own name. */
  function NamedTitle(p: Page, name: string): Option<string> {
    var h := FirstText(Trimmed(p.headings), NamedHeading(name));
    if h.Some? then h
    else if p.documentTitle != name then Some(p.documentTitle) else None
  }

  /** `textContent?.trim() || value?.trim()` */
  function FieldText(f: Field): Option<string> {
    var t := TrimOpt(f.textContent);
    if Truthy(t) then t else TrimOpt(f.value)
  }

  function MessageText(): Option<string> -> bool {
    (t: Option<string>) => Truthy(t) && 5 < |t.value| < 100
  }

  /** The first six space-separated words, with "..." when there were more. */
  function FirstWords(text: string): string {
    var words := Split(text, ' ');
    if |words| > 6 then Join(words[..6], ' ') + "..." else Join(words, ' ')
  }

  /** A text of at most six words is kept whole; a longer one is cut to a
      prefix of itself that ends where its seventh word would start, and
      marked with "...". */
  lemma FirstWordsSpec(text: string)
    ensures |Split(text, ' ')| == multiset(text)[' '] + 1
    ensures |Split(text, ' ')| <= 6 ==> FirstWords(text) == text
    ensures |Split(text, ' ')| > 6 ==>
      && FirstWords(text) == Join(Split(text, ' ')[..6], ' ') + "..."
      && StartsWith(text, Join(Split(text, ' ')[..6], ' '))
  {
    JoinSplit(text, ' ');
    SplitCount(text, ' ');
    if |Split(text, ' ')| > 6 {
      JoinPrefix(Split(text, ' '), ' ', 6);
    }
  }

  function GeminiDocTitle(docTitle: string): bool {
    docTitle != "" && docTitle != "Gemini" && !Contains(docTitle, "Google AI") && |docTitle| > 3
  }

  /** `getGeminiTitle`: an accepted heading; else the first words of the
      first usable message; else the trimmed document title when it is
      meaningful; else a title made from the local time. It never gives up. */
  function GeminiTitle(p: Page): (r: string) {
    var h := FirstText(Trimmed(p.headings), GeminiHeading());
    if h.Some? then h.value
    else
      var m := FirstText(Map(p.messages, FieldText), MessageText());
      if m.Some? then FirstWords(m.value)
      else
        var docTitle := Trim(p.documentTitle);
        if GeminiDocTitle(docTitle) then docTitle
        else "Gemini Chat " + p.localeTime
  }

  /** The Claude, Perplexity, Grok and DeepSeek cascades give no title exactly
      when no heading passes and the document title is the product name, so
      the title is never the bare product name. */
  lemma NamedTitleSpec(p: Page, name: string)
    ensures NamedTitle(p, name).None? <==>
      (forall j :: 0 <= j < |p.headings| ==> !NamedHeading(name)(TrimOpt(p.headings[j]))) && p.documentTitle == name
    ensures NamedTitle(p, name).Some? ==> NamedTitle(p, name).value != name
  {
    var cands := Trimmed(p.headings);
    var h := FirstText(cands, NamedHeading(name));
    if h.None? {
      forall j | 0 <= j < |p.headings| ensures !NamedHeading(name)(TrimOpt(p.headings[j])) {
        assert cands[j] == TrimOpt(p.headings[j]);
      }
    } else {
      var i :| 0 <= i < |cands| && NamedHeading(name)(cands[i]);
      assert TrimOpt(p.headings[i]) == cands[i];
    }
  }
  /** When heading `i` is the first to pass the product's test, it is the title. */
  lemma NamedTitleFirst(p: Page, name: string, i: nat)
    requires i < |p.headings| && NamedHeading(name)(TrimOpt(p.headings[i]))
    requires forall j :: 0 <= j < i ==> !NamedHeading(name)(TrimOpt(p.headings[j]))
    ensures NamedTitle(p, name) == TrimOpt(p.headings[i])
  {
    FirstTextIsFirst(Trimmed(p.headings), NamedHeading(name), i);
  }

  /** When no heading passes, the title is the untrimmed document title,
      unless that is the product name. */
  lemma NamedTitleFallback(p: Page, name: string)
    requires forall j :: 0 <= j < |p.headings| ==> !NamedHeading(name)(TrimOpt(p.headings[j]))
    ensures NamedTitle(p, name) == (if p.documentTitle != name then Some(p.documentTitle) else None)
  {
    var cands := Trimmed(p.headings);
    forall k | 0 <= k < |cands| ensures !NamedHeading(name)(cands[k]) {
      assert cands[k] == TrimOpt(p.headings[k]);
    }
  }


  /** With no usable heading, Gemini's title comes from the first message
      whose text has between 6 and 99 characters, shortened to its first six
      words. */
  lemma GeminiTitleFromMessage(p: Page, i: nat)
    requires forall j :: 0 <= j < |p.headings| ==> !GeminiHeading()(TrimOpt(p.headings[j]))
    requires i < |p.messages| && MessageText()(FieldText(p.messages[i]))
    requires forall j :: 0 <= j < i ==> !MessageText()(FieldText(p.messages[j]))
    ensures GeminiTitle(p) == FirstWords(FieldText(p.messages[i]).value)
  {
    var cands := Trimmed(p.headings);
    forall k | 0 <= k < |cands| ensures !GeminiHeading()(cands[k]) {
      assert cands[k] == TrimOpt(p.headings[k]);
    }
    var texts := Map(p.messages, FieldText);
    FirstTextIsFirst(texts, MessageText(), i);
  }

  /** `getChatTitle`: the helper of the page's host, or the trimmed document
      title when it is longer than 3 characters. */
  function ChatTitle(p: Page): Option<string> {
    if p.hostname == "chatgpt.com" || p.hostname == "chat.openai.com" then ChatGPTTitle(p)
    else if p.hostname == "claude.ai" then NamedTitle(p, "Claude")
    else if p.hostname == "gemini.google.com" then Some(GeminiTitle(p))
    else if p.hostname == "www.perplexity.ai" then NamedTitle(p, "Perplexity")
    else if p.hostname == "grok.x.ai" then NamedTitle(p, "Grok")
    else if p.hostname == "chat.deepseek.com" then NamedTitle(p, "DeepSeek")
    else
      var docTitle := Trim(p.documentTitle);
      if docTitle != "" && |docTitle| > 3 then Some(docTitle) else None
  }

  /** ChatGPT's title is the first heading that passes its test, and without
      one the document title; there is none exactly when no heading passes
      and the document title is "ChatGPT", so the title is never "ChatGPT". */
  lemma ChatGPTTitleSpec(p: Page)
    ensures ChatGPTTitle(p).None? <==>
      (forall j :: 0 <= j < |p.headings| ==> !ChatGPTHeading()(TrimOpt(p.headings[j]))) && p.documentTitle == "ChatGPT"
    ensures ChatGPTTitle(p).Some? ==> ChatGPTTitle(p).value != "ChatGPT"
  {
    var cands := Trimmed(p.headings);
    var h := FirstText(cands, ChatGPTHeading());
    if h.None? {
      forall j | 0 <= j < |p.headings| ensures !ChatGPTHeading()(TrimOpt(p.headings[j])) {
        assert cands[j] == TrimOpt(p.headings[j]);
      }
    } else {
      var i :| 0 <= i < |cands| && ChatGPTHeading()(cands[i]);
      assert TrimOpt(p.headings[i]) == cands[i];
    }
  }
  /** When heading `i` is the first to pass ChatGPT's test, it is the title. */
  lemma ChatGPTTitleFirst(p: Page, i: nat)
    requires i < |p.headings| && ChatGPTHeading()(TrimOpt(p.headings[i]))
    requires forall j :: 0 <= j < i ==> !ChatGPTHeading()(TrimOpt(p.headings[j]))
    ensures ChatGPTTitle(p) == TrimOpt(p.headings[i])
  {
    FirstTextIsFirst(Trimmed(p.headings), ChatGPTHeading(), i);
  }

  /** When no heading passes, the title is the untrimmed document title,
      unless that is "ChatGPT". */
  lemma ChatGPTTitleFallback(p: Page)
    requires forall j :: 0 <= j < |p.headings| ==> !ChatGPTHeading()(TrimOpt(p.headings[j]))
    ensures ChatGPTTitle(p) == (if p.documentTitle != "ChatGPT" then Some(p.documentTitle) else None)
  {
    var cands := Trimmed(p.headings);
    forall k | 0 <= k < |cands| ensures !ChatGPTHeading()(cands[k]) {
      assert cands[k] == TrimOpt(p.headings[k]);
    }
  }

  /** When heading `i` is the first to pass Gemini's test, it is the title. */
  lemma GeminiTitleFromHeading(p: Page, i: nat)
    requires i < |p.headings| && GeminiHeading()(TrimOpt(p.headings[i]))
    requires forall j :: 0 <= j < i ==> !GeminiHeading()(TrimOpt(p.headings[j]))
    ensures Some(GeminiTitle(p)) == TrimOpt(p.headings[i])
  {
    FirstTextIsFirst(Trimmed(p.headings), GeminiHeading(), i);
  }

  /** With no usable heading and no usable message, Gemini's title is the
      trimmed document title when it is meaningful, and otherwise
      "Gemini Chat " followed by the local time. */
  lemma GeminiTitleFromDocument(p: Page)
    requires forall j :: 0 <= j < |p.headings| ==> !GeminiHeading()(TrimOpt(p.headings[j]))
    requires forall j :: 0 <= j < |p.messages| ==> !MessageText()(FieldText(p.messages[j]))
    ensures var docTitle := Trim(p.documentTitle);
      GeminiTitle(p) == (if GeminiDocTitle(docTitle) then docTitle else "Gemini Chat " + p.localeTime)
  {
    var cands := Trimmed(p.headings);
    forall k | 0 <= k < |cands| ensures !GeminiHeading()(cands[k]) {
      assert cands[k] == TrimOpt(p.headings[k]);
    }
    var texts := Map(p.messages, FieldText);
    forall k | 0 <= k < |texts| ensures !MessageText()(texts[k]) {
      assert texts[k] == FieldText(p.messages[k]);
    }
  }


  /** The Gemini cascade always ends with a non-empty title. */
  lemma GeminiTitleNeverEmpty(p: Page)
    ensures GeminiTitle(p) != ""
  {
    var h := FirstText(Trimmed(p.headings), GeminiHeading());
    if h.None? {
      var m := FirstText(Map(p.messages, FieldText), MessageText());
      if m.Some? {
        var ws := Split(m.value, ' ');
        FirstWordsSpec(m.value);
        if |ws| <= 6 {
          JoinSplit(m.value, ' ');
        }
      } else {
        assert ("Gemini Chat " + p.localeTime)[0] == 'G';
      }
    }
  }

  // ---------------------------------------------------------------------
  // Preview

  /** `text.substring(0, 200) + (text.length > 200 ? '...' : '')` */
  function Truncate(text: string): (r: string) {
    if |text| > 200 then text[..200] + "..." else text
  }

  /** A text of at most 200 characters is kept; a longer one becomes its first
      200 characters followed by "...". */
  lemma TruncateSpec(text: string)
    ensures |text| <= 200 ==> Truncate(text) == text
    ensures |text| > 200 ==>
      |Truncate(text)| == 203 && Truncate(text)[..200] == text[..200] && Truncate(text)[200..] == "..."
    ensures |Truncate(text)| <= 203
  {
  }

  function PreviewText(): Option<string> -> bool {
    (t: Option<string>) => Truthy(t) && |t.value| > 10
  }

  /** `getChatPreview` */
  function ChatPreview(p: Page): string {
    var t := FirstText(Trimmed(p.previews), PreviewText());
    if t.Some? then Truncate(t.value) else ""
  }

  /** The preview is empty exactly when no candidate's trimmed text is longer
      than 10 characters; otherwise it is the first such text, cut. */
  lemma ChatPreviewSpec(p: Page)
    ensures ChatPreview(p) == "" <==> forall j :: 0 <= j < |p.previews| ==> !PreviewText()(TrimOpt(p.previews[j]))
    ensures |ChatPreview(p)| <= 203
  {
    var cands := Trimmed(p.previews);
    var t := FirstText(cands, PreviewText());
    if t.Some? {
      TruncateSpec(t.value);
      var i :| 0 <= i < |cands| && PreviewText()(cands[i]);
      assert TrimOpt(p.previews[i]) == cands[i];
    } else {
      forall j | 0 <= j < |p.previews| ensures !PreviewText()(TrimOpt(p.previews[j])) {
        assert cands[j] == TrimOpt(p.previews[j]);
      }
    }
  }
  /** When candidate `i` is the first whose trimmed text is longer than 10
      characters, the preview is that text, cut. */
  lemma ChatPreviewFirst(p: Page, i: nat)
    requires i < |p.previews| && PreviewText()(TrimOpt(p.previews[i]))
    requires forall j :: 0 <= j < i ==> !PreviewText()(TrimOpt(p.previews[j]))
    ensures ChatPreview(p) == Truncate(TrimOpt(p.previews[i]).value)
  {
    FirstTextIsFirst(Trimmed(p.previews), PreviewText(), i);
  }


  // ---------------------------------------------------------------------
  // Is this a conversation?

  predicate OnChatGPT(p: Page) {
    p.hostname == "chatgpt.com" || p.hostname == "chat.openai.com"
  }

  predicate GeminiPage(p: Page) {
    p.hostname == "gemini.google.com" && (Contains(p.href, "/app") || p.pathname == "/app")
    && p.documentTitle != "Gemini" && !Contains(p.documentTitle, "Google AI")
  }

  /** `isValidAIConversation`: a title longer than 3 characters, then one
      rule per host; on Gemini the page's own content decides. */
  predicate IsValidAIConversation(p: Page) {
    var title := p.documentTitle;
    if title == "" || |title| <= 3 then false
    else if OnChatGPT(p) && Contains(p.href, "/c/") && title != "ChatGPT" then true
    else if p.hostname == "claude.ai" && (Contains(p.href, "/chat/") || Contains(p.href, "/conversation/"))
            && title != "Claude" then true
    else if GeminiPage(p) then p.hasGeminiConversation
    else if p.hostname == "www.perplexity.ai" && (Contains(p.href, "/search/") || |p.pathname| > 1)
            && title != "Perplexity" then true
    else if p.hostname == "grok.x.ai" && |p.pathname| > 1 && title != "Grok" then true
    else if p.hostname == "chat.deepseek.com" && |p.pathname| > 1 && title != "DeepSeek" then true
    else false
  }

  const HOSTS := ["chatgpt.com", "chat.openai.com", "claude.ai", "gemini.google.com",
                  "www.perplexity.ai", "grok.x.ai", "chat.deepseek.com"]

  /** No conversation is recognised under a title of 3 characters or fewer,
      nor on another host. On each host the rule is exactly its own
      condition: for Gemini the answer is `hasGeminiConversation`. */
  lemma IsValidAIConversationSpec(p: Page)
    ensures |p.documentTitle| <= 3 ==> !IsValidAIConversation(p)
    ensures p.hostname !in HOSTS ==> !IsValidAIConversation(p)
    ensures OnChatGPT(p) ==>
      (IsValidAIConversation(p) <==> |p.documentTitle| > 3 && Contains(p.href, "/c/") && p.documentTitle != "ChatGPT")
    ensures p.hostname == "claude.ai" ==>
      (IsValidAIConversation(p) <==>
         |p.documentTitle| > 3 && (Contains(p.href, "/chat/") || Contains(p.href, "/conversation/"))
         && p.documentTitle != "Claude")
    ensures p.hostname == "www.perplexity.ai" ==>
      (IsValidAIConversation(p) <==>
         |p.documentTitle| > 3 && (Contains(p.href, "/search/") || |p.pathname| > 1)
         && p.documentTitle != "Perplexity")
    ensures p.hostname == "gemini.google.com" && |p.documentTitle| > 3 ==>
      IsValidAIConversation(p) == (GeminiPage(p) && p.hasGeminiConversation)
    ensures p.hostname == "grok.x.ai" ==>
      (IsValidAIConversation(p) <==> |p.documentTitle| > 3 && |p.pathname| > 1 && p.documentTitle != "Grok")
    ensures p.hostname == "chat.deepseek.com" ==>
      (IsValidAIConversation(p) <==> |p.documentTitle| > 3 && |p.pathname| > 1 && p.documentTitle != "DeepSeek")
  {
  }

  // ---------------------------------------------------------------------
  // Chat info

  datatype ChatInfo = ChatInfo(url: string, title: string, preview: string, folderId: string)

  /** `extractChatInfo` */
  function ExtractChatInfo(p: Page): Option<ChatInfo> {
    var title := ChatTitle(p);
    if !Truthy(title) || title.value == "ChatGPT" then None
    else Some(ChatInfo(p.href, title.value, ChatPreview(p), "root"))
  }

  /** There is no chat info exactly when the title is missing, empty or
      "ChatGPT"; otherwise it is filed under "root" with the page's URL. On
      Gemini a title is always found. */
  lemma ExtractChatInfoSpec(p: Page)
    ensures ExtractChatInfo(p).None? <==> !Truthy(ChatTitle(p)) || ChatTitle(p) == Some("ChatGPT")
    ensures ExtractChatInfo(p).Some? ==>
      && ExtractChatInfo(p).value.folderId == "root"
      && ExtractChatInfo(p).value.url == p.href
      && ExtractChatInfo(p).value.title != ""
      && ExtractChatInfo(p).value.title != "ChatGPT"
      && Some(ExtractChatInfo(p).value.title) == ChatTitle(p)
      && ExtractChatInfo(p).value.preview == ChatPreview(p)
    ensures p.hostname == "gemini.google.com" ==> Truthy(ChatTitle(p))
  {
    if p.hostname == "gemini.google.com" {
      GeminiTitleNeverEmpty(p);
    }
  }

  /** The reply to `EXTRACT_CHAT_INFO`. */
  function ExtractAndSendChatInfo(p: Page): Result<ChatInfo, string> {
    match ExtractChatInfo(p)
    case Some(info) => Success(info)
    case None => Failure("Could not extract chat info")
  }

  /** The page answers `EXTRACT_CHAT_INFO` with its chat info exactly when it
      has a usable title, and otherwise with the fixed error text. */
  lemma ExtractAndSendChatInfoSpec(p: Page)
    ensures ExtractAndSendChatInfo(p).Success? <==> Truthy(ChatTitle(p)) && ChatTitle(p) != Some("ChatGPT")
    ensures ExtractAndSendChatInfo(p).Success? ==>
      ExtractAndSendChatInfo(p).value.url == p.href && Some(ExtractAndSendChatInfo(p).value.title) == ChatTitle(p)
    ensures ExtractAndSendChatInfo(p).Failure? ==> ExtractAndSendChatInfo(p).error == "Could not extract chat info"
  {
    ExtractChatInfoSpec(p);
  }

  // ---------------------------------------------------------------------
  // Title observer and the conversation check

  /** The observer's filter: a new title other than "ChatGPT" triggers a
      check and is remembered; anything else is ignored. */
  function TitleFilter(lastTitle: string, current: string): (bool, string) {
    if current != lastTitle && current != "ChatGPT" then (true, current) else (false, lastTitle)
  }

  /** A title triggers at most one check in a row: right after it fired,
      the same title is ignored. "ChatGPT" never fires and is never
      remembered. */
  lemma TitleFilterOnce(lastTitle: string, current: string)
    ensures TitleFilter(lastTitle, current).0 ==> !TitleFilter(TitleFilter(lastTitle, current).1, current).0
    ensures !TitleFilter(lastTitle, "ChatGPT").0 && TitleFilter(lastTitle, "ChatGPT").1 == lastTitle
    ensures TitleFilter(lastTitle, current).0 <==> current != lastTitle && current != "ChatGPT"
  {
  }

  /** What came back from `CHECK_PENDING_LINKS`: the send threw, or a reply
      (possibly without `success`/`linked`, which then read as false). */
  datatype CheckReply = Threw | Replied(success: bool, linked: bool)

  /** The reply the background's dispatcher produces, as the content script
      reads it. */
  function ReadReply(r: Store.Reply): CheckReply {
    match r
    case OkLink(res) => Replied(true, res.Linked?)
    case Error(_) => Replied(false, false)
    case _ => Replied(true, false)
  }

  /** `checkForNewConversation`: the messages the script sends, given the
      reply to the first one. */
  function ConversationMessages(p: Page, reply: CheckReply): seq<Store.Message> {
    match ExtractChatInfo(p)
    case None => []
    case Some(info) =>
      if !IsValidAIConversation(p) then []
      else
        var check := Store.CheckPendingLinksMsg(p.href, Some(info.title));
        if reply.Threw? || (reply.success && reply.linked) then [check]
        else [check, Store.SaveChatMsg(info.url, info.title)]
  }

  /** Runs messages from one tab through the background's dispatcher. */
  function Deliver(s: Storage, msgs: seq<Store.Message>, sender: Option<TabId>, env: Store.Env): Storage
    decreases |msgs|
  {
    if |msgs| == 0 then s
    else Deliver(Store.HandleMessage(s, msgs[0], sender, env).state, msgs[1..], sender, env)
  }

  /** Delivering a check and then, maybe, a `SAVE_CHAT` leaves the state the
      check produced. */
  lemma DeliverCheckThenSave(s: Storage, url: string, title: string, saveUrl: string, save: bool,
                             tab: Option<TabId>, env: Store.Env)
    ensures var check := Store.CheckPendingLinks(s, url, Some(title), tab, env.id, env.now);
      var msgs := [Store.CheckPendingLinksMsg(url, Some(title))] + (if save then [Store.SaveChatMsg(saveUrl, title)] else []);
      Deliver(s, msgs, tab, env) == check.state
  {
    var check := Store.CheckPendingLinks(s, url, Some(title), tab, env.id, env.now);
    var msgs := [Store.CheckPendingLinksMsg(url, Some(title))] + (if save then [Store.SaveChatMsg(saveUrl, title)] else []);
    assert Store.HandleMessage(s, msgs[0], tab, env).state == check.state;
    assert Deliver(s, msgs, tab, env) == Deliver(check.state, msgs[1..], tab, env);
    if save {
      Store.SaveChatStoresNothing(check.state, saveUrl, title, tab, env);
      assert msgs[1..][0] == Store.SaveChatMsg(saveUrl, title);
      assert msgs[1..][1..] == [];
      assert Deliver(check.state, msgs[1..], tab, env) == Deliver(check.state, msgs[1..][1..], tab, env);
    } else {
      assert msgs[1..] == [];
    }
  }

  /** End to end: a conversation page sends `SAVE_CHAT` exactly when no
      pending link held its tab, and whatever it sends changes the store
      only as `checkPendingLinks` does. An unclaimed conversation is
      therefore not stored at all. */
  lemma ConversationReachesStore(s: Storage, p: Page, info: ChatInfo, tab: Option<TabId>, env: Store.Env)
    requires ExtractChatInfo(p) == Some(info) && IsValidAIConversation(p)
    ensures var check := Store.CheckPendingLinks(s, p.href, Some(info.title), tab, env.id, env.now);
      var msgs := ConversationMessages(p, ReadReply(Store.HandleMessage(s, Store.CheckPendingLinksMsg(p.href, Some(info.title)), tab, env).reply));
      && (|msgs| == 2 <==> check.result == NotLinked)
      && Deliver(s, msgs, tab, env) == check.state
  {
    var check := Store.CheckPendingLinks(s, p.href, Some(info.title), tab, env.id, env.now);
    var reply := Store.HandleMessage(s, Store.CheckPendingLinksMsg(p.href, Some(info.title)), tab, env).reply;
    assert reply == Store.OkLink(check.result);
    var save := check.result == NotLinked;
    assert ReadReply(reply) == Replied(true, !save);
    ConversationMessagesShape(p, info, ReadReply(reply));
    DeliverCheckThenSave(s, p.href, info.title, info.url, save, tab, env);
  }

  /** For a valid conversation, the check always goes out, and `SAVE_CHAT`
      follows unless the reply says the page was linked. */
  lemma ConversationMessagesShape(p: Page, info: ChatInfo, reply: CheckReply)
    requires ExtractChatInfo(p) == Some(info) && IsValidAIConversation(p)
    ensures ConversationMessages(p, reply) == [Store.CheckPendingLinksMsg(p.href, Some(info.title))]
      + (if reply.Threw? || (reply.success && reply.linked) then [] else [Store.SaveChatMsg(info.url, info.title)])
  {
  }

  /** The script object: only `lastTitle` changes. */
  class ContentScript {
    var lastTitle: string

    constructor ()
      ensures lastTitle == ""
    {
      lastTitle := "";
    }

    /** The title observer's callback; reports whether it starts a
        conversation check. */
    method OnTitleMutation(current: string) returns (check: bool)
      modifies this
      ensures (check, lastTitle) == TitleFilter(old(lastTitle), current)
    {
      check := false;
      if current != lastTitle && current != "ChatGPT" {
        lastTitle := current;
        check := true;
      }
    }
  }
}
