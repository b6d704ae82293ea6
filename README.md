# TreeManager in Dafny

A model of the core of the TreeManager browser extension. The extension files AI chat conversations from ChatGPT, Claude, Gemini, Perplexity, Grok and DeepSeek into a tree of folders, chats and subchats. The model covers three parts:

- **The background service** (`SimpleBackgroundService`). It owns the store: folders, chats, settings and three *pending-link slots*. A slot records "the tab opened for this folder / subchat / chat has not reported its conversation URL yet".
  - Each message handler, the tab-update listener and the pending-link protocol is a pure step function on the store (module `Store`).
  - A class with the same fields implements each step imperatively (module `Background`). Each method is proved to produce exactly the state the step function gives.
- **The side panel.**
  - The set of collapsed items and the toggles, collapse-all and expand-all that change it (class `SidePanel.Panel`).
  - Which rows the tree shows and how deep each one is indented.
  - The rules of the input modal and of rename.
- **The content script.** The decisions it makes over a snapshot of the page:
  - the title cascade for each provider;
  - the preview;
  - the conversation test;
  - the title observer;
  - the exchange with the background that decides whether a conversation is linked or dropped.

Modules:

- `Wrappers`: `Option` and `Result`.
- `Strings`:
  - JavaScript truthiness of strings;
  - `String.prototype.trim` together with the ECMAScript white-space set;
  - `split` and `join` on one character;
  - substring search.
- `Seqs`: `filter`, `find` and `findIndex` as functions, with their lemmas.
- `Providers`:
  - the host list;
  - `isValidLLMUrl` and `isConversationUrl`;
  - the trigger test of `tabs.onUpdated`;
  - the `llm`-key lookups.
- `Records`:
  - the stored records;
  - the storage object, where each key is present or absent;
  - the reply of `checkPendingLinks`.
- `Store`: the background service as step functions, and the lemmas about them.
- `Background`: the service as a class whose methods update its fields.
- `SidePanel`: the panel's rendering rules and its state.
- `Content`: the content script.

Inputs the code takes from its environment become parameters:
- fresh ids from `Date.now()`;
- ISO timestamps;
- the tab that `chrome.tabs.create` returns, which is `None` when the call throws;
- the sender's tab id;
- the result of `new URL(text)`;
- what DOM queries return.

Every asynchronous handler is modelled as running to completion without interleaving.

Where the code and its specification disagree, the model follows the code. One point: `createSubchat` is defined twice in the class. The second definition (`background-simple.js:579-644`, with an `llm` argument) replaces the first, so only the second is modelled.

## Model

| member | source | states |
|---|---|---|
| Store.InitializeStorageDefaults | TreeManager/background-simple.js:56-73 | A store without folders gets the root folder, no chats and the default settings. A store with folders is left unchanged. Initializing is idempotent and never writes any of the three pending-link slots. |
| Store.GetAllDataDefaults | TreeManager/background-simple.js:155-162 | An absent `folders` or `chats` key reads as an empty list. Absent settings read as the defaults. Stored keys read as themselves. |
| Store.CreateFolderAppends | TreeManager/background-simple.js:164-188 | Exactly one folder is appended. It has the given id, the trimmed name (a fixpoint of trim), and a parent exactly when a truthy parent id was given. It has no chat URL and is not expanded. Chats, settings and all three slots are unchanged. |
| Store.DeleteFolderCascade | TreeManager/background-simple.js:190-196 | The surviving folders are exactly those with another id. The surviving chats are exactly those whose own `folder_id` differs, so a subchat of a deleted chat survives on its own `folder_id`. Settings and slots are unchanged. |
| Store.DeleteFolderKeepsOrder | TreeManager/background-simple.js:190-196 | Deleting from a chat list made of two parts is deleting from each part, so survivors keep their stored order. |
| Store.OpenFolderChatIff | TreeManager/background-simple.js:257-272 | A tab is opened exactly when the first folder with the id has a non-empty chat URL, and it is opened on that URL. |
| Store.OpenFolderChatMissing | TreeManager/background-simple.js:257-272 | With no folder of that id, nothing is opened. |
| Store.DeleteChatKeepsSubchats | TreeManager/background-simple.js:198-202 | `deleteChat` keeps exactly the chats with another id. Subchats of the deleted chat survive, still pointing at it. Folders, settings and all three slots are unchanged. |
| Store.DeleteChatKeepsOrder | TreeManager/background-simple.js:198-202 | Deleting from a chat list made of two parts is deleting from each part, so survivors keep their stored order. |
| Store.RenameChatFrame | TreeManager/background-simple.js:274-293 | With no chat of that id, nothing changes. Otherwise only the first chat with the id changes: its title and `updated_at`. Its URL and identity fields and every other chat and key stay. |
| Store.LinkChatUrlFrame | TreeManager/background-simple.js:467-492 | With no chat of that id, nothing changes. Otherwise only the first chat with the id changes: its URL and `updated_at`. Its title and every other chat and key stay. |
| Store.CreateChatInFolderAppends | TreeManager/background-simple.js:494-553 | Exactly one chat is appended: unlinked, root-level, filed in the folder, named after its provider. An opened tab replaces the pending chat link. A failed tab leaves the link as it was. Folders and the other slots are unchanged. |
| Store.CreateSubchatSpec | TreeManager/background-simple.js:579-644 | Fails with "Parent chat not found" exactly when no chat has the parent id. Otherwise it appends one unlinked chat with the given `llm` and its display name. The chat inherits the first parent's `folder_id` and points at the parent. The pending subchat link is replaced only when a tab opened. Nothing else changes. |
| Store.CheckPendingLinksPriority | TreeManager/background-simple.js:383-416 | The reply names the first slot holding the reporting tab, in the order folder, subchat, chat. It is "not linked" exactly when no slot holds the tab. |
| Store.CheckPendingLinksSlots | TreeManager/background-simple.js:383-416 | The matched slot is cleared and the other two stay. With no match the store is unchanged. Settings never change. |
| Store.CheckPendingLinksConsumesOnce | TreeManager/background-simple.js:383-416 | A link consumes exactly one matching slot. When the tab held at most one slot, an immediate second report is "not linked" and changes nothing. |
| Store.CheckPendingLinksFolder | TreeManager/background-simple.js:204-255 | A matched folder slot whose folder exists sets that folder's chat URL. It appends one root-level chat filed in the folder, titled after the page or "New Chat", and clears the slot. A missing folder only clears the slot. |
| Store.CheckPendingLinksChat | TreeManager/background-simple.js:356-381 | A matched subchat or chat slot sets the URL of the first chat with the slot's id. No other chat changes. A missing chat only clears the slot. |
| Store.OnTabUpdatedIgnoresOtherHosts | TreeManager/background-simple.js:28-46 | An update of a tab whose URL does not parse, or is not on a recognised host, never changes the store. |
| Store.OnTabUpdatedFolderSlot | TreeManager/background-simple.js:28-46 | A tab update never stores a pending folder link; it can only keep or clear one. |
| Store.CreateThenReportLinksChat | TreeManager/background-simple.js:494-553 | Creating a chat in a folder, then having its tab report a conversation, links that chat to the reported URL and clears the pending chat link. |
| Store.SecondCreationOrphansFirst | TreeManager/background-simple.js:530-544 | The second of two creations overwrites the pending chat link. When the first tab reports, nothing is linked and the first chat keeps no URL. |
| Store.GoogleNameRoundTrip | TreeManager/background-simple.js:567-577 | A chat created with `llm = "google"` reads back with the display name "Google Gemini". |
| Store.LinkThenOpen | TreeManager/background-simple.js:204-272 | After a folder slot links an existing folder, opening that folder opens the reported URL. |
| Store.SaveChatStoresNothing | TreeManager/background-simple.js:140-148 | `SAVE_CHAT` replies success and stores nothing. An unknown type replies "Unknown message type" and stores nothing. |
| Store.HandleMessageFailures | TreeManager/background-simple.js:75-153 | In the model, the only failing replies are an unknown type and a missing parent chat. A failing reply leaves the store unchanged. |
| Store.HandleMessageSlotFrame | TreeManager/background-simple.js:75-153 | No message stores a pending folder link. Each of the other two slots is written only by its own create message and by `CHECK_PENDING_LINKS`. |
| Providers.ValidHostIffProvider | TreeManager/background-simple.js:418-465 | The seven-host list of `isValidLLMUrl` and the hostname chain of `isConversationUrl` recognise the same hosts. |
| Providers.ConversationUrlIsValid | TreeManager/background-simple.js:437-465 | Every conversation URL is a valid provider URL. An empty or unparseable URL is never a conversation. |
| Providers.ClaudeConversationExamples | TreeManager/background-simple.js:437-465 | `claude.ai/chat/abc` is a conversation. `claude.ai/settings` and the empty URL are not. |
| Providers.TabUpdateTrigger | TreeManager/background-simple.js:28-46 | A tab update triggers a check only on a recognised host. Without a title change, it triggers exactly on conversation URLs. |
| Providers.LLMLookups | TreeManager/background-simple.js:555-577 | Both lookups have the same six keys. Any key other than the six falls back to the OpenAI entry in both, except inherited property names (see Left out). "google" is named "Google Gemini". |
| Providers.StartPagesAreRecognised | TreeManager/background-simple.js:555-565 | Every start page is on a recognised host. A start page counts as a conversation exactly for the Claude and Gemini keys. |
| Background.FindIndex | TreeManager/background-simple.js:278-279 | `findIndex` returns -1 exactly when nothing matches. Otherwise it returns the first matching index; either way it agrees with `Seqs.FirstIndex`. |
| Background.BackgroundService.constructor | TreeManager/background-simple.js:14-18 | The service starts from the stored keys, initialized. |
| Background.BackgroundService.InitializeStorage | TreeManager/background-simple.js:56-73 | The new state is `Store.InitializeStorage` of the old one. |
| Background.BackgroundService.GetAllData | TreeManager/background-simple.js:155-162 | Returns `Store.GetAllData` of the state and changes nothing. |
| Background.BackgroundService.CreateFolder | TreeManager/background-simple.js:164-188 | The new state is `Store.CreateFolder` of the old one, and the new folder's id is returned. |
| Background.BackgroundService.DeleteFolder | TreeManager/background-simple.js:190-196 | The new state is `Store.DeleteFolder` of the old one. |
| Background.BackgroundService.DeleteChat | TreeManager/background-simple.js:198-202 | The new state is `Store.DeleteChat` of the old one: the filtered chat list is stored. |
| Background.BackgroundService.RenameChat | TreeManager/background-simple.js:274-293 | The new state is `Store.RenameChat` of the old one. The method finds the index with `FindIndex` and updates that chat in place. |
| Background.BackgroundService.LinkTabToChat | TreeManager/background-simple.js:467-492 | The new state is `Store.LinkChatUrl` of the old one, for the chat id. |
| Background.BackgroundService.LinkTabToSubchat | TreeManager/background-simple.js:356-381 | The new state is `Store.LinkChatUrl` of the old one, for the subchat id. |
| Background.BackgroundService.LinkTabToFolder | TreeManager/background-simple.js:204-255 | The new state is `Store.LinkTabToFolder` of the old one. |
| Background.BackgroundService.CheckPendingLinks | TreeManager/background-simple.js:383-416 | The new state and the reply are those of `Store.CheckPendingLinks`. |
| Background.BackgroundService.CreateChatInFolder | TreeManager/background-simple.js:494-553 | The new state is `Store.CreateChatInFolder` of the old one. The tab is opened on the provider's start page. |
| Background.BackgroundService.CreateSubchat | TreeManager/background-simple.js:579-644 | On failure the state is unchanged and the error is returned. On success the new state is `Store.CreateSubchat`'s, and the start page is returned. |
| Background.BackgroundService.OpenFolderChat | TreeManager/background-simple.js:257-272 | Returns `Store.OpenFolderChat` of the state and changes nothing. |
| Background.BackgroundService.OnTabUpdated | TreeManager/background-simple.js:28-46 | The new state is `Store.OnTabUpdated` of the old one. |
| Background.BackgroundService.HandleMessage | TreeManager/background-simple.js:75-153 | The new state, the reply and the opened tab are those of `Store.HandleMessage`. |
| SidePanel.KeysAreDistinct | TreeManager/sidepanel/sidepanel-simple.js:546-564 | A `folder-` key never equals a `chat-` key, and each key names exactly one id. |
| SidePanel.ToggleFlipsOneKey | TreeManager/sidepanel/sidepanel-simple.js:546-564 | A toggle flips the membership of its own key and of no other. Toggling twice restores the set. |
| SidePanel.FolderCountIsFilterLength | TreeManager/sidepanel/sidepanel-simple.js:87 | The folder count is the length of the list of chats whose `folder_id` is the folder's id. |
| SidePanel.FolderCountIncludesSubchats | TreeManager/sidepanel/sidepanel-simple.js:86-97 | The badge counts top-level chats and subchats of the folder together. A folder with count 0 lists no chats. |
| SidePanel.ChatBlockShape | TreeManager/sidepanel/sidepanel-simple.js:180-289 | A chat's block starts with its own row. The rest are chat rows nested deeper. |
| SidePanel.ChatBlocksShape | TreeManager/sidepanel/sidepanel-simple.js:180-289 | The rows of a list's blocks at exactly its depth are the listed chats, in order. |
| SidePanel.ChatBlockChildren | TreeManager/sidepanel/sidepanel-simple.js:283-287 | A collapsed chat, or one without subchats, is a single row. Under an expanded chat come exactly its subchats, one level deeper and in stored order. |
| SidePanel.RenderTreeEmptyIff | TreeManager/sidepanel/sidepanel-simple.js:78-81 | The empty state is shown exactly when there are no folders and no chats. |
| SidePanel.RenderTreeFolders | TreeManager/sidepanel/sidepanel-simple.js:74-107 | The folder rows are exactly the folders with a falsy `parent_id`, in stored order. |
| SidePanel.RenderTreeOutline | TreeManager/sidepanel/sidepanel-simple.js:74-107 | The unindented rows are exactly the outline: each root folder, then its top-level chats when it is expanded, then the orphan chats. |
| SidePanel.FolderKeysUpToIff | TreeManager/sidepanel/sidepanel-simple.js:569-575 | After the first loop has visited `n` folders, a key has been added exactly when it names one of them with a positive count. |
| SidePanel.ChatKeysUpToIff | TreeManager/sidepanel/sidepanel-simple.js:577-583 | After the second loop has visited `n` chats, a key has been added exactly when it names one of them with a subchat. |
| SidePanel.CollapseAllKeysIff | TreeManager/sidepanel/sidepanel-simple.js:566-587 | `collapseAll` adds a key exactly when it names a folder with a positive count or a chat with a subchat. |
| SidePanel.CollapsedTreeIsFlat | TreeManager/sidepanel/sidepanel-simple.js:566-587 | Once those keys are collapsed, the tree shows only the root folders, then the orphan chats, all unindented. |
| SidePanel.ModalConfirm | TreeManager/sidepanel/sidepanel-simple.js:323-345 | A confirmed title is the trimmed input, is not empty, and is its own trim. |
| SidePanel.ModalConfirmIff | TreeManager/sidepanel/sidepanel-simple.js:323-345 | Confirm closes the modal exactly when the input is not all white space and, with the dropdown shown, an `llm` was chosen. The title is checked first. After a confirmed rename, only an unchanged title is skipped. |
| SidePanel.UrlCheckAgrees | TreeManager/sidepanel/sidepanel-simple.js:695-714 | The panel's `isValidLLMUrl` accepts the same URLs as the background's: exactly the parsed URLs on the seven hosts. |
| SidePanel.Panel.constructor | TreeManager/sidepanel/sidepanel-simple.js:13-16 | The panel starts with no collapsed items, no folders and no chats. |
| SidePanel.Panel.ToggleFolder | TreeManager/sidepanel/sidepanel-simple.js:546-554 | The collapsed set becomes its toggle on the folder's key. The data is unchanged. |
| SidePanel.Panel.ToggleChat | TreeManager/sidepanel/sidepanel-simple.js:556-564 | The collapsed set becomes its toggle on the chat's key. The data is unchanged. |
| SidePanel.Panel.CollapseAll | TreeManager/sidepanel/sidepanel-simple.js:566-587 | The collapsed set becomes the old set plus the keys of `CollapseAllKeys`, and no key is removed. The data is unchanged. |
| SidePanel.Panel.CollapseFolders | TreeManager/sidepanel/sidepanel-simple.js:569-575 | The first loop adds the key of every folder with a positive count. |
| SidePanel.Panel.CollapseChats | TreeManager/sidepanel/sidepanel-simple.js:577-583 | The second loop adds the key of every chat with a subchat. |
| SidePanel.Panel.ExpandAll | TreeManager/sidepanel/sidepanel-simple.js:589-594 | The collapsed set becomes empty. The data is unchanged. |
| SidePanel.Panel.LoadData | TreeManager/sidepanel/sidepanel-simple.js:39-71 | Only a successful reply replaces the data. A failure keeps the old data, and the collapsed set never changes. |
| Content.FirstTextIsFirst | TreeManager/content.js:159-167 | A selector cascade picks the first candidate that passes its test. |
| Content.ChatGPTTitleSpec | TreeManager/content.js:151-169 | There is no title exactly when no heading passes and the document title is "ChatGPT". The title is never "ChatGPT". |
| Content.ChatGPTTitleFirst | TreeManager/content.js:159-167 | When heading `i` is the first whose trimmed text passes ChatGPT's test, the title is that trimmed text. |
| Content.ChatGPTTitleFallback | TreeManager/content.js:168 | When no heading passes, the title is the untrimmed document title, or none when that is "ChatGPT". |
| Content.NamedTitleSpec | TreeManager/content.js:171-190 | For Claude, Perplexity, Grok and DeepSeek, there is no title exactly when no heading passes and the document title is the product name. The title is never that name. |
| Content.NamedTitleFirst | TreeManager/content.js:180-188 | For a product name, when heading `i` is the first whose trimmed text passes that product's test, the title is that trimmed text. |
| Content.NamedTitleFallback | TreeManager/content.js:189 | When no heading passes, the title is the untrimmed document title, or none when that is the product name. |
| Content.FirstWordsSpec | TreeManager/content.js:229-232 | A message of at most six words is kept whole. A longer one becomes a prefix of itself made of its first six words, followed by "...". |
| Content.GeminiTitleFromMessage | TreeManager/content.js:218-234 | With no usable heading, Gemini's title is the first six words of the first message whose length is between 6 and 99. |
| Content.GeminiTitleFromHeading | TreeManager/content.js:204-214 | When heading `i` is the first whose trimmed text passes Gemini's test, the title is that trimmed text. |
| Content.GeminiTitleFromDocument | TreeManager/content.js:236-243 | With no usable heading or message, the title is the trimmed document title when it is meaningful. Otherwise it is "Gemini Chat " followed by the local time. |
| Content.GeminiTitleNeverEmpty | TreeManager/content.js:192-244 | The Gemini cascade always ends with a non-empty title. |
| Content.TruncateSpec | TreeManager/content.js:349-351 | A text of at most 200 characters is kept. A longer one becomes its first 200 characters followed by "...". |
| Content.ChatPreviewSpec | TreeManager/content.js:336-356 | The preview is empty exactly when no candidate's trimmed text is longer than 10 characters. It is never longer than 203 characters. |
| Content.ChatPreviewFirst | TreeManager/content.js:345-353 | When candidate `i` is the first whose trimmed text is longer than 10 characters, the preview is that text cut by `Truncate`. |
| Content.IsValidAIConversationSpec | TreeManager/content.js:358-410 | No conversation is recognised under a title of 3 characters or fewer, nor on another host. For ChatGPT, Claude, Gemini, Perplexity, Grok and DeepSeek the answer is exactly that host's own rule; on Gemini it is `hasGeminiConversation`. |
| Content.ExtractChatInfoSpec | TreeManager/content.js:107-122 | There is no chat info exactly when the title is missing, empty or "ChatGPT". Otherwise the info has the page URL, that title and the preview, and is filed under "root". Gemini always yields a title. |
| Content.ExtractAndSendChatInfoSpec | TreeManager/content.js:412-419 | The reply carries the chat info exactly when the title is usable. Otherwise it carries "Could not extract chat info". |
| Content.TitleFilterOnce | TreeManager/content.js:51-57 | A title fires exactly when it differs from the remembered one and is not "ChatGPT". Right after it fires, the same title is ignored. "ChatGPT" never fires and leaves the remembered title as it was. |
| Content.ConversationMessagesShape | TreeManager/content.js:69-97 | For a valid conversation, the check is always sent. `SAVE_CHAT` follows unless the send threw or the reply says the page was linked. |
| Content.DeliverCheckThenSave | TreeManager/content.js:69-97 | A check followed by an optional `SAVE_CHAT` leaves exactly the store the check produced. |
| Content.ConversationReachesStore | TreeManager/content.js:69-97 | A recognised conversation is saved (two messages) exactly when no pending link held its tab. The store ends as `checkPendingLinks` leaves it, so an unclaimed conversation is not stored. |
| Content.ContentScript.constructor | TreeManager/content.js:17-20 | The remembered title starts empty. |
| Content.ContentScript.OnTitleMutation | TreeManager/content.js:51-57 | Whether a check starts, and the new remembered title, are those of `TitleFilter`. |

## Left out

- **DOM and markup.** Markup, styling, notifications, modal widgets, event wiring and `escapeHtml` are not modelled. The tree is modelled as the sequence of rows it shows, each with its kind, id and depth.
- **Browser side effects.** `chrome.storage`, `chrome.tabs` and `chrome.runtime` messaging are replaced:
  - the store is a value;
  - the outcome of tab creation, the sender's tab id, fresh ids and timestamps are parameters.
- **Concurrency.** Each asynchronous handler runs to completion without interleaving. Races between concurrent read-modify-write handlers are not modelled.
- **URL parsing.** `new URL(...)` is not modelled. A URL carries its parse, or `None` when the constructor throws.
- **Thrown errors.** Every handler in `handleMessage` catches any thrown error and replies `{success: false, error}`. This covers a `chrome.storage` failure, the errors that `renameChat`, `createSubchat` and `createChatInFolder` rethrow, and malformed message data such as a `CREATE_FOLDER` whose `name` is not a string. None of these is modelled: the store is a value and messages are typed, so `Store.HandleMessageFailures` speaks only of the failures left.
- **Read-only messages.** `HEALTH_CHECK`, `DEBUG_PENDING_LINKS` and `GET_TAB_ID` only read the store or the sender; the dispatcher does not model them.
- **The tab id in message data.** `getCurrentTabId` and the `tabId` the content script puts into `CHECK_PENDING_LINKS` are not modelled. The background ignores that field and uses the sender's tab.
- **The shadowed `createSubchat`.** The first definition (`background-simple.js:295-354`) is replaced by the second in the class body.
- **Gemini page content.** `hasGeminiConversation` inspects the DOM. It is a field of the page snapshot.
- **ChatGPT heading candidates.** The content script's ChatGPT and Gemini heading cascades visit every element matching each selector; the others visit only the first. The snapshot is the list of candidates, already in that order.
- **Gemini's time-stamped fallback title.** It uses `toLocaleString()`, and the local time is a snapshot field.
- **String lengths.** JavaScript lengths count UTF-16 code units; the model counts Unicode scalar values. They differ only for characters outside the Basic Multilingual Plane.
- **Subchat nesting depth.** The side panel recurses into subchats without a bound. The model's `ChatBlock` carries fuel equal to the number of chats. The fuel runs out only on a cyclic parent chain, but the model does not prove that it is enough for every acyclic store.
- **Panel initial settings.** The panel starts with `settings: {}`. `SidePanel.Panel.constructor` uses the default settings instead; the panel never reads them.
- **The pending folder link.** No file of this core ever stores a `pendingFolderLink`. The model handles one already in storage, and `Store.HandleMessageSlotFrame` proves that no message writes one.
- Providers.LLMLookups: the fallback is stated for every key outside the six. In the source, `getLLMUrl` and `getLLMName` index plain object literals, so an inherited property name such as `"toString"` or `"constructor"` yields a function and does not fall back. The model's finite maps have no inherited keys. The panel only sends the six dropdown keys.
- **The green/grey status dot** on chats and folders is left out because it is purely presentational.
- **Start pages that already count as conversations.**
  - The Claude start page `https://claude.ai/chat/` and the Gemini start page `https://gemini.google.com/app` already pass `isConversationUrl`.
  - So the first `onUpdated` of a freshly opened Claude or Gemini tab links the pending item to the start page itself.
  - `Providers.StartPagesAreRecognised` states this; the model keeps the behaviour as written.
