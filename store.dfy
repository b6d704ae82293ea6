/** The background service as a state machine over `Storage`: one pure
    function per handler of `SimpleBackgroundService`
    (TreeManager/background-simple.js), each the effect of the handler run to
    completion without interleaving, and the lemmas that state what each
    handler promises. The class in background.dfy implements these steps
    imperatively and is proved to agree with them. */
module Store {
  import opened Wrappers
  import opened Strings
  import opened Seqs
  import opened Providers
  import opened Records

  // ---------------------------------------------------------------------
  // Storage defaults: initializeStorage and getAllData

  /** `initializeStorage`: when no folder list is stored, write the root
      folder, an empty chat list and the default settings. */
  function InitializeStorage(s: Storage): Storage {
    if s.folders.None? then
      s.(folders := Some([ROOT_FOLDER]), chats := Some([]), settings := Some(DEFAULT_SETTINGS))
    else s
  }

  /** `getAllData`: each absent key reads as its default. */
  function GetAllData(s: Storage): AllData {
    AllData(s.Folders(), s.Chats(), s.settings.GetOr(DEFAULT_SETTINGS))
  }

  /** After initialization the folder list is stored; on a fresh store the data
      is exactly the root folder, no chats and the default settings, and a
      store that already has folders is left alone. Initializing twice is
      initializing once, and none of the three pending-link slots is written. */
  lemma InitializeStorageDefaults(s: Storage)
    ensures InitializeStorage(s).folders.Some?
    ensures s.folders.None? ==> GetAllData(InitializeStorage(s)) == AllData([ROOT_FOLDER], [], DEFAULT_SETTINGS)
    ensures s.folders.Some? ==> InitializeStorage(s) == s
    ensures InitializeStorage(InitializeStorage(s)) == InitializeStorage(s)
    ensures InitializeStorage(s).pendingFolderLink == s.pendingFolderLink
    ensures InitializeStorage(s).pendingSubchatLink == s.pendingSubchatLink
    ensures InitializeStorage(s).pendingChatLink == s.pendingChatLink
  {
  }

  /** An absent key reads as its default and a stored key as itself. */
  lemma GetAllDataDefaults(s: Storage)
    ensures s.folders.None? ==> GetAllData(s).folders == []
    ensures s.chats.None? ==> GetAllData(s).chats == []
    ensures s.settings.None? ==> GetAllData(s).settings == Settings(true, "dark")
    ensures s.folders.Some? ==> GetAllData(s).folders == s.folders.value
    ensures s.chats.Some? ==> GetAllData(s).chats == s.chats.value
  {
  }

  // ---------------------------------------------------------------------
  // Folders

  /** The folder `createFolder` builds: trimmed name, `parentId || null`,
      collapsed, no chat URL yet. */
  function NewFolder(name: string, parentId: Option<string>, id: string, now: string): Folder {
    Folder(id, Trim(name), OrNull(parentId), false, Some(now), None)
  }

  /** `createFolder`: appends the new folder; chats and the pending slots are not written. */
  function CreateFolder(s: Storage, name: string, parentId: Option<string>, id: string, now: string): Storage {
    s.(folders := Some(s.Folders() + [NewFolder(name, parentId, id, now)]))
  }

  /** `createFolder` appends exactly one folder, carrying the given id, the
      trimmed name and a parent only when one was given, and changes nothing
      else. */
  lemma CreateFolderAppends(s: Storage, name: string, parentId: Option<string>, id: string, now: string)
    ensures var r := CreateFolder(s, name, parentId, id, now);
      && |r.Folders()| == |s.Folders()| + 1
      && r.Folders()[..|s.Folders()|] == s.Folders()
      && var f := r.Folders()[|s.Folders()|];
      && f.id == id && f.name == Trim(name) && Trim(f.name) == f.name
      && (f.parentId.Some? <==> Truthy(parentId))
      && f.chatUrl.None? && !f.expanded
      && r.chats == s.chats && r.settings == s.settings
      && r.pendingFolderLink == s.pendingFolderLink
      && r.pendingSubchatLink == s.pendingSubchatLink
      && r.pendingChatLink == s.pendingChatLink
  {
    TrimIdempotent(name);
  }

  function NotFolder(id: string): Folder -> bool {
    (f: Folder) => f.id != id
  }

  function OutsideFolder(id: string): Chat -> bool {
    (c: Chat) => c.folderId != Some(id)
  }

  /** `deleteFolder`: keeps the folders with another id and the chats whose
      `folder_id` is not the folder's id; both lists are written back. */
  function DeleteFolder(s: Storage, folderId: string): Storage {
    s.(folders := Some(Filter(s.Folders(), NotFolder(folderId))),
       chats := Some(Filter(s.Chats(), OutsideFolder(folderId))))
  }

  /** `deleteFolder` removes the folder and exactly the chats filed directly
      under it; every other folder and chat survives. A subchat is judged by
      its own `folder_id` alone, so one whose parent was deleted survives
      when its own `folder_id` differs. The slots and settings are untouched. */
  lemma DeleteFolderCascade(s: Storage, folderId: string)
    ensures var r := DeleteFolder(s, folderId);
      && (forall f :: f in r.Folders() <==> f in s.Folders() && f.id != folderId)
      && (forall c :: c in r.Chats() <==> c in s.Chats() && c.folderId != Some(folderId))
      && r.settings == s.settings
      && r.pendingFolderLink == s.pendingFolderLink
      && r.pendingSubchatLink == s.pendingSubchatLink
      && r.pendingChatLink == s.pendingChatLink
  {
    forall f {
      FilterMembers(s.Folders(), NotFolder(folderId), f);
    }
    forall c {
      FilterMembers(s.Chats(), OutsideFolder(folderId), c);
    }
  }

  /** `deleteFolder` keeps the survivors in their stored order: deleting from a
      list made of two parts is deleting from each part. */
  lemma DeleteFolderKeepsOrder(s: Storage, folderId: string, a: seq<Chat>, b: seq<Chat>)
    requires s.Chats() == a + b
    ensures DeleteFolder(s, folderId).Chats() == Filter(a, OutsideFolder(folderId)) + Filter(b, OutsideFolder(folderId))
  {
    FilterConcat(a, b, OutsideFolder(folderId));
  }

  /** `openFolderChat`: the URL opened in a new tab, if the first folder with
      this id has a (non-empty) chat URL. */
  function OpenFolderChat(s: Storage, folderId: string): Option<string> {
    match Find(s.Folders(), HasFolderId(folderId))
    case None => None
    case Some(f) => if Truthy(f.chatUrl) then f.chatUrl else None
  }

  /** A tab is opened exactly when the first folder with the id has a
      non-empty chat URL, and it is opened on that URL. */
  lemma OpenFolderChatIff(s: Storage, folderId: string, i: nat)
    requires i < |s.Folders()| && s.Folders()[i].id == folderId
    requires forall j :: 0 <= j < i ==> s.Folders()[j].id != folderId
    ensures OpenFolderChat(s, folderId).Some? <==> Truthy(s.Folders()[i].chatUrl)
    ensures OpenFolderChat(s, folderId).Some? ==> OpenFolderChat(s, folderId) == s.Folders()[i].chatUrl
  {
    FindIsFirst(s.Folders(), HasFolderId(folderId), i);
  }

  /** No folder with the id: nothing is opened. */
  lemma OpenFolderChatMissing(s: Storage, folderId: string)
    requires forall j :: 0 <= j < |s.Folders()| ==> s.Folders()[j].id != folderId
    ensures OpenFolderChat(s, folderId) == None
  {
  }

  // ---------------------------------------------------------------------
  // Chats

  function NotChat(id: string): Chat -> bool {
    (c: Chat) => c.id != id
  }

  /** `deleteChat`: keeps the chats with another id and writes them back;
      no other key is written. */
  function DeleteChat(s: Storage, chatId: string): Storage {
    s.(chats := Some(Filter(s.Chats(), NotChat(chatId))))
  }

  /** `deleteChat` removes every chat with the id and nothing else: in
      particular the subchats of the deleted chat stay, still pointing at it. */
  lemma DeleteChatKeepsSubchats(s: Storage, chatId: string)
    ensures var r := DeleteChat(s, chatId);
      && (forall c :: c in r.Chats() <==> c in s.Chats() && c.id != chatId)
      && (forall c :: c in s.Chats() && c.parentChatId == Some(chatId) && c.id != chatId ==> c in r.Chats())
      && r.folders == s.folders && r.settings == s.settings
      && r.pendingFolderLink == s.pendingFolderLink
      && r.pendingSubchatLink == s.pendingSubchatLink
      && r.pendingChatLink == s.pendingChatLink
  {
    forall c {
      FilterMembers(s.Chats(), NotChat(chatId), c);
    }
  }

  /** `deleteChat` keeps the survivors in their stored order: deleting from a
      list made of two parts is deleting from each part. */
  lemma DeleteChatKeepsOrder(s: Storage, chatId: string, a: seq<Chat>, b: seq<Chat>)
    requires s.Chats() == a + b
    ensures DeleteChat(s, chatId).Chats() == Filter(a, NotChat(chatId)) + Filter(b, NotChat(chatId))
  {
    FilterConcat(a, b, NotChat(chatId));
  }

  /** The write `renameChat` makes to the first chat with the id. */
  function Renamed(c: Chat, newTitle: string, now: string): Chat {
    c.(title := newTitle, updatedAt := Some(now))
  }

  /** The write `linkTabToChat` and `linkTabToSubchat` make to the first chat with the id. */
  function WithUrl(c: Chat, url: string, now: string): Chat {
    c.(url := Some(url), updatedAt := Some(now))
  }

  /** `renameChat`: retitles the first chat with the id; nothing is written
      when there is none. */
  function RenameChat(s: Storage, chatId: string, newTitle: string, now: string): Storage {
    var cs := s.Chats();
    match FirstIndex(cs, HasChatId(chatId))
    case None => s
    case Some(i) => s.(chats := Some(cs[i := Renamed(cs[i], newTitle, now)]))
  }

  /** `linkTabToChat` / `linkTabToSubchat`: sets the URL of the first chat
      with the id; nothing is written when there is none. */
  function LinkChatUrl(s: Storage, chatId: string, url: string, now: string): Storage {
    var cs := s.Chats();
    match FirstIndex(cs, HasChatId(chatId))
    case None => s
    case Some(i) => s.(chats := Some(cs[i := WithUrl(cs[i], url, now)]))
  }

  /** `s2` differs from `s` at most in the chat at index `i`, which has the
      same id, folder, parent, provider and creation time; every other key is
      untouched. */
  predicate OnlyChatChanged(s: Storage, s2: Storage, i: nat) {
    && i < |s.Chats()|
    && |s2.Chats()| == |s.Chats()|
    && (forall j :: 0 <= j < |s.Chats()| && j != i ==> s2.Chats()[j] == s.Chats()[j])
    && var c, c2 := s.Chats()[i], s2.Chats()[i];
    && c2.id == c.id && c2.folderId == c.folderId && c2.parentChatId == c.parentChatId
    && c2.llm == c.llm && c2.llmName == c.llmName && c2.createdAt == c.createdAt
    && s2.folders == s.folders && s2.settings == s.settings
    && s2.pendingFolderLink == s.pendingFolderLink
    && s2.pendingSubchatLink == s.pendingSubchatLink
    && s2.pendingChatLink == s.pendingChatLink
  }

  /** `renameChat` changes the title and `updated_at` of the first chat with
      the id and nothing else; it changes nothing when the id is absent. */
  lemma RenameChatFrame(s: Storage, chatId: string, newTitle: string, now: string)
    ensures var r := RenameChat(s, chatId, newTitle, now);
      match FirstIndex(s.Chats(), HasChatId(chatId))
      case None => r == s
      case Some(i) =>
        && OnlyChatChanged(s, r, i)
        && r.Chats()[i].title == newTitle && r.Chats()[i].updatedAt == Some(now)
        && r.Chats()[i].url == s.Chats()[i].url
        && (forall j :: 0 <= j < i ==> s.Chats()[j].id != chatId)
  {
  }

  /** `linkTabToChat` and `linkTabToSubchat` change the URL and `updated_at` of
      the first chat with the id and nothing else; they change nothing when
      the id is absent. */
  lemma LinkChatUrlFrame(s: Storage, chatId: string, url: string, now: string)
    ensures var r := LinkChatUrl(s, chatId, url, now);
      match FirstIndex(s.Chats(), HasChatId(chatId))
      case None => r == s
      case Some(i) =>
        && OnlyChatChanged(s, r, i)
        && r.Chats()[i].url == Some(url) && r.Chats()[i].updatedAt == Some(now)
        && r.Chats()[i].title == s.Chats()[i].title
        && (forall j :: 0 <= j < i ==> s.Chats()[j].id != chatId)
  {
  }

  /** The chat `createChatInFolder` appends: not linked yet, filed in the folder, at root level. */
  function FolderChat(folderId: string, title: string, llm: string, chatId: string, now: string): Chat {
    Chat(chatId, title, None, Some(folderId), None, Some(llm), Some(LLMName(llm)), now, Some(now))
  }

  /** `createChatInFolder`: appends the chat, then, if the tab opened
      (`tab` is `None` when `chrome.tabs.create` threw), overwrites
      `pendingChatLink` with one for the new tab. The folder is not looked up. */
  function CreateChatInFolder(s: Storage, folderId: string, title: string, llm: string,
                              chatId: string, now: string, tab: Option<TabId>, stamp: int): Storage
  {
    var s1 := s.(chats := Some(s.Chats() + [FolderChat(folderId, title, llm, chatId, now)]));
    match tab
    case None => s1
    case Some(t) => s1.(pendingChatLink := Some(ChatLink(chatId, t, title, llm, stamp)))
  }

  /** `createChatInFolder` appends exactly one unlinked chat in the folder,
      named after its provider; a tab that opened replaces the pending chat
      link (last write wins), a tab that failed leaves the slot as it was.
      Folders and the other two slots are untouched. */
  lemma CreateChatInFolderAppends(s: Storage, folderId: string, title: string, llm: string,
                                  chatId: string, now: string, tab: Option<TabId>, stamp: int)
    ensures var r := CreateChatInFolder(s, folderId, title, llm, chatId, now, tab, stamp);
      && |r.Chats()| == |s.Chats()| + 1 && r.Chats()[..|s.Chats()|] == s.Chats()
      && var c := r.Chats()[|s.Chats()|];
      && c.id == chatId && c.title == title && c.url == None
      && c.folderId == Some(folderId) && c.parentChatId == None
      && c.llm == Some(llm) && c.llmName == Some(LLMName(llm))
      && (tab.None? ==> r.pendingChatLink == s.pendingChatLink)
      && (tab.Some? ==> r.pendingChatLink == Some(ChatLink(chatId, tab.value, title, llm, stamp)))
      && r.folders == s.folders && r.settings == s.settings
      && r.pendingFolderLink == s.pendingFolderLink
      && r.pendingSubchatLink == s.pendingSubchatLink
  {
  }

  /** The subchat `createSubchat` appends under `parent`: same folder as the
      parent, URL not known yet. */
  function Subchat(parent: Chat, title: string, llm: string, subchatId: string, now: string): Chat {
    Chat(subchatId, title, None, parent.folderId, Some(parent.id), Some(llm), Some(LLMName(llm)), now, Some(now))
  }

  const PARENT_NOT_FOUND := "Parent chat not found"

  /** `createSubchat` (the second definition in the class, which replaces the
      first): fails when no chat has the parent id; otherwise appends the
      subchat and, if the tab opened, overwrites `pendingSubchatLink`. */
  function CreateSubchat(s: Storage, parentChatId: string, title: string, llm: string,
                         subchatId: string, now: string, tab: Option<TabId>, stamp: int): Result<Storage, string>
  {
    match Find(s.Chats(), HasChatId(parentChatId))
    case None => Failure(PARENT_NOT_FOUND)
    case Some(parent) =>
      var s1 := s.(chats := Some(s.Chats() + [Subchat(parent, title, llm, subchatId, now)]));
      match tab
      case None => Success(s1)
      case Some(t) => Success(s1.(pendingSubchatLink := Some(SubchatLink(subchatId, t, title, llm, stamp))))
  }

  /** `createSubchat` fails with "Parent chat not found" exactly when no chat
      has the parent id. Otherwise it appends exactly one unlinked chat that
      inherits the `folder_id` of the first chat with the parent id and points
      at it; a tab that opened replaces the pending subchat link, a tab that
      failed leaves it. Folders and the other two slots are untouched. */
  lemma CreateSubchatSpec(s: Storage, parentChatId: string, title: string, llm: string,
                          subchatId: string, now: string, tab: Option<TabId>, stamp: int)
    ensures var r := CreateSubchat(s, parentChatId, title, llm, subchatId, now, tab, stamp);
      && (r.Failure? <==> forall j :: 0 <= j < |s.Chats()| ==> s.Chats()[j].id != parentChatId)
      && (r.Failure? ==> r.error == "Parent chat not found")
      && (r.Success? ==>
        var r := r.value;
        var i := FirstIndex(s.Chats(), HasChatId(parentChatId)).value;
        && |r.Chats()| == |s.Chats()| + 1 && r.Chats()[..|s.Chats()|] == s.Chats()
        && var c := r.Chats()[|s.Chats()|];
        && c.id == subchatId && c.url == None && c.title == title
        && c.folderId == s.Chats()[i].folderId && c.parentChatId == Some(parentChatId)
        && c.llm == Some(llm) && c.llmName == Some(LLMName(llm))
        && (tab.None? ==> r.pendingSubchatLink == s.pendingSubchatLink)
        && (tab.Some? ==> r.pendingSubchatLink == Some(SubchatLink(subchatId, tab.value, title, llm, stamp)))
        && r.folders == s.folders && r.settings == s.settings
        && r.pendingFolderLink == s.pendingFolderLink
        && r.pendingChatLink == s.pendingChatLink)
  {
    if FirstIndex(s.Chats(), HasChatId(parentChatId)).Some? {
      var i := FirstIndex(s.Chats(), HasChatId(parentChatId)).value;
      FindIsFirst(s.Chats(), HasChatId(parentChatId), i);
    }
  }

  // ---------------------------------------------------------------------
  // The pending-link protocol

  /** `pendingLink && pendingLink.tabId === tabId` for a reporting tab that may
      be unknown (`sender.tab?.id` is `undefined` outside a tab). */
  predicate SlotMatches(slotTab: Option<TabId>, tab: Option<TabId>) {
    slotTab.Some? && tab == slotTab
  }

  function FolderSlotTab(s: Storage): Option<TabId> {
    if s.pendingFolderLink.Some? then Some(s.pendingFolderLink.value.tabId) else None
  }

  function SubchatSlotTab(s: Storage): Option<TabId> {
    if s.pendingSubchatLink.Some? then Some(s.pendingSubchatLink.value.tabId) else None
  }

  function ChatSlotTab(s: Storage): Option<TabId> {
    if s.pendingChatLink.Some? then Some(s.pendingChatLink.value.tabId) else None
  }

  /** The chat `linkTabToFolder` appends for a linked folder. */
  function LinkedFolderChat(folderId: string, url: string, title: Option<string>, chatId: string, now: string): Chat {
    Chat(chatId, if Truthy(title) then title.value else "New Chat", Some(url), Some(folderId), None, None, None, now, None)
  }

  /** `linkTabToFolder`: when the folder slot holds this tab and its folder
      exists, sets the first such folder's `chat_url`, appends a chat for the
      conversation and clears the slot; otherwise writes nothing. */
  function LinkTabToFolder(s: Storage, tab: Option<TabId>, url: string, title: Option<string>,
                           chatId: string, now: string): Storage
  {
    if !SlotMatches(FolderSlotTab(s), tab) then s
    else
      var link := s.pendingFolderLink.value;
      var fs := s.Folders();
      match FirstIndex(fs, HasFolderId(link.folderId))
      case None => s
      case Some(i) =>
        s.(folders := Some(fs[i := fs[i].(chatUrl := Some(url))]),
           chats := Some(s.Chats() + [LinkedFolderChat(link.folderId, url, title, chatId, now)]),
           pendingFolderLink := None)
  }

  /** The state after `checkPendingLinks` and its reply. */
  datatype Checked = Checked(state: Storage, result: LinkResult)

  /** `checkPendingLinks`: tries the folder, subchat and chat slots in that
      order; the first one holding the reporting tab is linked and removed,
      and the others are not looked at. `chatId` and `now` are the id and
      time a linked folder's new chat gets. */
  function CheckPendingLinks(s: Storage, url: string, title: Option<string>, tab: Option<TabId>,
                             chatId: string, now: string): Checked
  {
    if SlotMatches(FolderSlotTab(s), tab) then
      Checked(LinkTabToFolder(s, tab, url, title, chatId, now).(pendingFolderLink := None), Linked(FolderKind))
    else if SlotMatches(SubchatSlotTab(s), tab) then
      Checked(LinkChatUrl(s, s.pendingSubchatLink.value.subchatId, url, now).(pendingSubchatLink := None), Linked(SubchatKind))
    else if SlotMatches(ChatSlotTab(s), tab) then
      Checked(LinkChatUrl(s, s.pendingChatLink.value.chatId, url, now).(pendingChatLink := None), Linked(ChatKind))
    else
      Checked(s, NotLinked)
  }

  /** The reply names the first matching slot in the order folder, subchat,
      chat, and is "not linked" exactly when none matches. */
  lemma CheckPendingLinksPriority(s: Storage, url: string, title: Option<string>, tab: Option<TabId>,
                                  chatId: string, now: string)
    ensures var r := CheckPendingLinks(s, url, title, tab, chatId, now).result;
      && (r == Linked(FolderKind) <==> SlotMatches(FolderSlotTab(s), tab))
      && (r == Linked(SubchatKind) <==> !SlotMatches(FolderSlotTab(s), tab) && SlotMatches(SubchatSlotTab(s), tab))
      && (r == Linked(ChatKind) <==>
            !SlotMatches(FolderSlotTab(s), tab) && !SlotMatches(SubchatSlotTab(s), tab) && SlotMatches(ChatSlotTab(s), tab))
      && (r == NotLinked <==>
            !SlotMatches(FolderSlotTab(s), tab) && !SlotMatches(SubchatSlotTab(s), tab) && !SlotMatches(ChatSlotTab(s), tab))
  {
  }

  /** The matched slot is removed whether or not its target folder or chat
      still exists; the other two slots are untouched. With no match nothing
      at all changes. */
  lemma CheckPendingLinksSlots(s: Storage, url: string, title: Option<string>, tab: Option<TabId>,
                               chatId: string, now: string)
    ensures var c := CheckPendingLinks(s, url, title, tab, chatId, now);
      && (c.result == NotLinked ==> c.state == s)
      && (c.result == Linked(FolderKind) ==>
            c.state.pendingFolderLink == None
            && c.state.pendingSubchatLink == s.pendingSubchatLink && c.state.pendingChatLink == s.pendingChatLink)
      && (c.result == Linked(SubchatKind) ==>
            c.state.pendingSubchatLink == None
            && c.state.pendingFolderLink == s.pendingFolderLink && c.state.pendingChatLink == s.pendingChatLink)
      && (c.result == Linked(ChatKind) ==>
            c.state.pendingChatLink == None
            && c.state.pendingFolderLink == s.pendingFolderLink && c.state.pendingSubchatLink == s.pendingSubchatLink)
      && c.state.settings == s.settings
  {
  }

  /** How many of the three slots hold the tab. */
  function MatchingSlots(s: Storage, tab: Option<TabId>): nat {
    (if SlotMatches(FolderSlotTab(s), tab) then 1 else 0)
    + (if SlotMatches(SubchatSlotTab(s), tab) then 1 else 0)
    + (if SlotMatches(ChatSlotTab(s), tab) then 1 else 0)
  }

  /** Each linking call consumes exactly one slot held by the tab, so a
      tab is linked at most as often as it has slots: when it held one slot,
      an immediate second call for it is "not linked" and changes nothing. */
  lemma CheckPendingLinksConsumesOnce(s: Storage, url: string, title: Option<string>, tab: Option<TabId>,
                                      chatId: string, now: string,
                                      url2: string, title2: Option<string>, chatId2: string, now2: string)
    ensures var c := CheckPendingLinks(s, url, title, tab, chatId, now);
      && (c.result.Linked? <==> MatchingSlots(s, tab) > 0)
      && (c.result.Linked? ==> MatchingSlots(c.state, tab) == MatchingSlots(s, tab) - 1)
      && (MatchingSlots(s, tab) <= 1 ==>
            CheckPendingLinks(c.state, url2, title2, tab, chatId2, now2) == Checked(c.state, NotLinked))
  {
    var c := CheckPendingLinks(s, url, title, tab, chatId, now);
    CheckPendingLinksSlots(s, url, title, tab, chatId, now);
    assert FolderSlotTab(c.state) == (if c.state.pendingFolderLink.Some? then Some(c.state.pendingFolderLink.value.tabId) else None);
  }

  /** A matched folder slot whose folder exists sets that folder's chat URL
      and appends exactly one chat for the conversation, titled after the
      page (or "New Chat") and filed in the folder; a missing folder writes
      nothing but the cleared slot. */
  lemma CheckPendingLinksFolder(s: Storage, url: string, title: Option<string>, tab: Option<TabId>,
                                chatId: string, now: string)
    requires SlotMatches(FolderSlotTab(s), tab)
    ensures var r := CheckPendingLinks(s, url, title, tab, chatId, now).state;
      var link := s.pendingFolderLink.value;
      match FirstIndex(s.Folders(), HasFolderId(link.folderId))
      case None => r == s.(pendingFolderLink := None)
      case Some(i) =>
        && |r.Folders()| == |s.Folders()|
        && r.Folders()[i] == s.Folders()[i].(chatUrl := Some(url))
        && (forall j :: 0 <= j < |s.Folders()| && j != i ==> r.Folders()[j] == s.Folders()[j])
        && |r.Chats()| == |s.Chats()| + 1 && r.Chats()[..|s.Chats()|] == s.Chats()
        && var c := r.Chats()[|s.Chats()|];
        && c.url == Some(url) && c.folderId == Some(link.folderId)
        && c.title == (if Truthy(title) then title.value else "New Chat")
        && c.parentChatId == None
        && r.pendingFolderLink == None
  {
  }

  /** A matched subchat or chat slot links the first chat with the slot's id
      to the URL and changes no other chat; a missing chat changes nothing
      but the cleared slot. */
  lemma CheckPendingLinksChat(s: Storage, url: string, title: Option<string>, tab: Option<TabId>,
                              chatId: string, now: string)
    requires !SlotMatches(FolderSlotTab(s), tab)
    requires SlotMatches(SubchatSlotTab(s), tab) || SlotMatches(ChatSlotTab(s), tab)
    ensures var c := CheckPendingLinks(s, url, title, tab, chatId, now);
      var target := if SlotMatches(SubchatSlotTab(s), tab) then s.pendingSubchatLink.value.subchatId
                    else s.pendingChatLink.value.chatId;
      var cleared := if SlotMatches(SubchatSlotTab(s), tab) then s.(pendingSubchatLink := None)
                     else s.(pendingChatLink := None);
      match FirstIndex(s.Chats(), HasChatId(target))
      case None => c.state == cleared
      case Some(i) =>
        && OnlyChatChanged(cleared, c.state, i)
        && c.state.Chats()[i].url == Some(url) && c.state.Chats()[i].updatedAt == Some(now)
        && c.state.Chats()[i].title == s.Chats()[i].title
  {
  }

  /** `chrome.tabs.onUpdated`: runs `checkPendingLinks` for the tab when the
      update passes the trigger test, and changes nothing otherwise. The tab
      title given to the check is the tab's own. */
  function OnTabUpdated(s: Storage, tabId: TabId, changedTitle: Option<string>, tabUrl: Url,
                        tabTitle: Option<string>, chatId: string, now: string): Storage
  {
    if TabUpdateTriggersCheck(tabUrl, changedTitle) then
      CheckPendingLinks(s, tabUrl.text, tabTitle, Some(tabId), chatId, now).state
    else s
  }

  /** An update of a tab that is not on a recognised provider host, or whose
      URL does not parse, never changes the store. */
  lemma OnTabUpdatedIgnoresOtherHosts(s: Storage, tabId: TabId, changedTitle: Option<string>, tabUrl: Url,
                                      tabTitle: Option<string>, chatId: string, now: string)
    requires tabUrl.parsed.None? || tabUrl.parsed.value.hostname !in VALID_HOSTS
    ensures OnTabUpdated(s, tabId, changedTitle, tabUrl, tabTitle, chatId, now) == s
  {
  }

  // ---------------------------------------------------------------------
  // Scenarios across several handlers

  /** Creating a chat in a folder whose tab then reports a conversation links
      that chat: its URL becomes the reported one, the reply is a chat link and
      the pending chat link is gone. */
  lemma CreateThenReportLinksChat(s: Storage, folderId: string, title: string, llm: string,
                                  chatId: string, now: string, t: TabId, stamp: int,
                                  url: string, pageTitle: Option<string>, chatId2: string, now2: string)
    requires !SlotMatches(FolderSlotTab(s), Some(t)) && !SlotMatches(SubchatSlotTab(s), Some(t))
    requires forall j :: 0 <= j < |s.Chats()| ==> s.Chats()[j].id != chatId
    ensures var s1 := CreateChatInFolder(s, folderId, title, llm, chatId, now, Some(t), stamp);
      var c := CheckPendingLinks(s1, url, pageTitle, Some(t), chatId2, now2);
      && c.result == Linked(ChatKind)
      && |c.state.Chats()| == |s.Chats()| + 1
      && c.state.Chats()[|s.Chats()|].url == Some(url)
      && c.state.Chats()[|s.Chats()|].updatedAt == Some(now2)
      && c.state.Chats()[|s.Chats()|].title == title
      && c.state.pendingChatLink == None
  {
    var s1 := CreateChatInFolder(s, folderId, title, llm, chatId, now, Some(t), stamp);
    FirstIndexIs(s1.Chats(), HasChatId(chatId), |s.Chats()|);
  }

  /** Two chat creations before either tab reports: the second pending link
      replaces the first, so when the first tab reports, nothing is linked,
      nothing changes, and the first chat keeps no URL. */
  lemma SecondCreationOrphansFirst(s: Storage, folderId: string,
                                   title1: string, llm1: string, id1: string, now1: string, t1: TabId, stamp1: int,
                                   title2: string, llm2: string, id2: string, now2: string, t2: TabId, stamp2: int,
                                   url: string, pageTitle: Option<string>, chatId3: string, now3: string)
    requires t1 != t2
    requires !SlotMatches(FolderSlotTab(s), Some(t1)) && !SlotMatches(SubchatSlotTab(s), Some(t1))
    ensures var s1 := CreateChatInFolder(s, folderId, title1, llm1, id1, now1, Some(t1), stamp1);
      var s2 := CreateChatInFolder(s1, folderId, title2, llm2, id2, now2, Some(t2), stamp2);
      var c := CheckPendingLinks(s2, url, pageTitle, Some(t1), chatId3, now3);
      && c == Checked(s2, NotLinked)
      && c.state.Chats()[|s.Chats()|].id == id1
      && c.state.Chats()[|s.Chats()|].url == None
  {
  }

  /** Creating a chat with `llm = "google"` and reading the store back shows
      the display name "Google Gemini". */
  lemma GoogleNameRoundTrip(s: Storage, folderId: string, title: string, chatId: string, now: string,
                            tab: Option<TabId>, stamp: int)
    ensures var d := GetAllData(CreateChatInFolder(s, folderId, title, "google", chatId, now, tab, stamp));
      && |d.chats| == |s.Chats()| + 1
      && d.chats[|s.Chats()|].llmName == Some("Google Gemini")
  {
    LLMLookups("google");
  }

  /** Once a folder slot held by a tab has linked an existing folder, opening
      that folder opens the reported conversation, provided no earlier folder
      has the same id and the URL is not empty. */
  lemma LinkThenOpen(s: Storage, url: string, title: Option<string>, tab: Option<TabId>,
                     chatId: string, now: string, i: nat)
    requires SlotMatches(FolderSlotTab(s), tab)
    requires i < |s.Folders()| && s.Folders()[i].id == s.pendingFolderLink.value.folderId
    requires forall j :: 0 <= j < i ==> s.Folders()[j].id != s.pendingFolderLink.value.folderId
    requires url != ""
    ensures var r := CheckPendingLinks(s, url, title, tab, chatId, now).state;
      OpenFolderChat(r, s.pendingFolderLink.value.folderId) == Some(url)
  {
    var id := s.pendingFolderLink.value.folderId;
    FirstIndexIs(s.Folders(), HasFolderId(id), i);
    var r := CheckPendingLinks(s, url, title, tab, chatId, now).state;
    CheckPendingLinksFolder(s, url, title, tab, chatId, now);
    OpenFolderChatIff(r, id, i);
  }

  // ---------------------------------------------------------------------
  // Message dispatch: handleMessage

  /** The runtime messages the service answers. `HEALTH_CHECK`,
      `DEBUG_PENDING_LINKS` and `GET_TAB_ID` only read and are not part of
      this model; any other type is `UnknownMsg`. */
  datatype Message =
    | GetAllDataMsg
    | CreateFolderMsg(name: string, parentId: Option<string>)
    | DeleteFolderMsg(folderId: string)
    | DeleteChatMsg(chatId: string)
    | OpenFolderChatMsg(folderId: string)
    | RenameChatMsg(chatId: string, newTitle: string)
    | CreateSubchatMsg(parentChatId: string, title: string, llm: string)
    | CreateChatInFolderMsg(folderId: string, title: string, llm: string)
    | CheckPendingLinksMsg(pageUrl: string, pageTitle: Option<string>)
    | SaveChatMsg(chatUrl: string, chatTitle: string)
    | UnknownMsg

  /** What the environment supplies to one handler run: the fresh id, the
      ISO time, the outcome of `chrome.tabs.create` (`None` when it threw)
      and `Date.now()`. */
  datatype Env = Env(id: string, now: string, tab: Option<TabId>, stamp: int)

  /** The response sent back: `{success: true}`, with data, the link reply,
      or `{success: false, error}`. */
  datatype Reply = Ok | OkData(data: AllData) | OkLink(result: LinkResult) | Error(message: string)

  /** The new storage, the reply, and the URL of the tab the handler asked
      the browser to open, if any. */
  datatype Handled = Handled(state: Storage, reply: Reply, openedTab: Option<string>)

  const UNKNOWN_MESSAGE := "Unknown message type"

  /** `handleMessage`: one handler run to completion. `sender` is
      `sender.tab?.id`. */
  function HandleMessage(s: Storage, m: Message, sender: Option<TabId>, env: Env): Handled {
    match m
    case GetAllDataMsg => Handled(s, OkData(GetAllData(s)), None)
    case CreateFolderMsg(name, parentId) => Handled(CreateFolder(s, name, parentId, env.id, env.now), Ok, None)
    case DeleteFolderMsg(folderId) => Handled(DeleteFolder(s, folderId), Ok, None)
    case DeleteChatMsg(chatId) => Handled(DeleteChat(s, chatId), Ok, None)
    case OpenFolderChatMsg(folderId) => Handled(s, Ok, OpenFolderChat(s, folderId))
    case RenameChatMsg(chatId, newTitle) => Handled(RenameChat(s, chatId, newTitle, env.now), Ok, None)
    case CreateSubchatMsg(parentChatId, title, llm) =>
      (match CreateSubchat(s, parentChatId, title, llm, env.id, env.now, env.tab, env.stamp)
       case Failure(e) => Handled(s, Error(e), None)
       case Success(s1) => Handled(s1, Ok, Some(LLMUrl(llm))))
    case CreateChatInFolderMsg(folderId, title, llm) =>
      Handled(CreateChatInFolder(s, folderId, title, llm, env.id, env.now, env.tab, env.stamp), Ok, Some(LLMUrl(llm)))
    case CheckPendingLinksMsg(url, title) =>
      var c := CheckPendingLinks(s, url, title, sender, env.id, env.now);
      Handled(c.state, OkLink(c.result), None)
    case SaveChatMsg(_, _) => Handled(s, Ok, None)
    case UnknownMsg => Handled(s, Error(UNKNOWN_MESSAGE), None)
  }

  /** `SAVE_CHAT` and unknown messages leave storage exactly as it was, so a
      conversation that no pending link claimed is not stored anywhere. */
  lemma SaveChatStoresNothing(s: Storage, url: string, title: string, sender: Option<TabId>, env: Env)
    ensures HandleMessage(s, SaveChatMsg(url, title), sender, env) == Handled(s, Ok, None)
    ensures HandleMessage(s, UnknownMsg, sender, env) == Handled(s, Error("Unknown message type"), None)
  {
  }

  /** The only failing replies are an unknown type and a missing parent chat,
      and a failing reply leaves storage unchanged. */
  lemma HandleMessageFailures(s: Storage, m: Message, sender: Option<TabId>, env: Env)
    ensures var h := HandleMessage(s, m, sender, env);
      && (h.reply.Error? <==>
            m.UnknownMsg? || (m.CreateSubchatMsg? && forall j :: 0 <= j < |s.Chats()| ==> s.Chats()[j].id != m.parentChatId))
      && (h.reply.Error? ==> h.state == s)
  {
    if m.CreateSubchatMsg? {
      CreateSubchatSpec(s, m.parentChatId, m.title, m.llm, env.id, env.now, env.tab, env.stamp);
    }
  }

  /** No message ever stores a pending folder link: the slot can only keep
      what storage already held, or be cleared by a link. Each of the other
      two slots is written only by its own create message and by
      `CHECK_PENDING_LINKS`. */
  lemma HandleMessageSlotFrame(s: Storage, m: Message, sender: Option<TabId>, env: Env)
    ensures var h := HandleMessage(s, m, sender, env);
      && (h.state.pendingFolderLink == s.pendingFolderLink || h.state.pendingFolderLink == None)
      && (!m.CheckPendingLinksMsg? && !m.CreateSubchatMsg? ==> h.state.pendingSubchatLink == s.pendingSubchatLink)
      && (!m.CheckPendingLinksMsg? && !m.CreateChatInFolderMsg? ==> h.state.pendingChatLink == s.pendingChatLink)
  {
    if m.CreateSubchatMsg? {
      CreateSubchatSpec(s, m.parentChatId, m.title, m.llm, env.id, env.now, env.tab, env.stamp);
    }
  }

  /** The folder slot survives tab updates too: no tab event stores one. */
  lemma OnTabUpdatedFolderSlot(s: Storage, tabId: TabId, changedTitle: Option<string>, tabUrl: Url,
                               tabTitle: Option<string>, chatId: string, now: string)
    ensures var r := OnTabUpdated(s, tabId, changedTitle, tabUrl, tabTitle, chatId, now);
      r.pendingFolderLink == s.pendingFolderLink || r.pendingFolderLink == None
  {
  }
}
