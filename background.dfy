/** `SimpleBackgroundService` (TreeManager/background-simple.js) as an object
    whose fields are the storage keys. Each handler loads the lists, changes
    them step by step as the source does (`findIndex`, `push`, an indexed
    write) and writes them back; its contract ties the new state to the pure
    step of the same name in module Store, where the handler's properties are
    proved. */
module Background {
  import opened Wrappers
  import opened Strings
  import opened Seqs
  import opened Providers
  import opened Records
  import Store

  /** `s.findIndex(p)` as a loop: the first index where `p` holds, or -1. */
  method FindIndex<T>(s: seq<T>, p: T -> bool) returns (i: int)
    ensures -1 <= i < |s|
    ensures i >= 0 ==> p(s[i]) && forall j :: 0 <= j < i ==> !p(s[j])
    ensures i == -1 <==> forall j :: 0 <= j < |s| ==> !p(s[j])
    ensures i == -1 ==> FirstIndex(s, p).None?
    ensures i >= 0 ==> FirstIndex(s, p) == Some(i)
  {
    i := 0;
    while i < |s|
      invariant 0 <= i <= |s|
      invariant forall j :: 0 <= j < i ==> !p(s[j])
    {
      if p(s[i]) {
        FirstIndexIs(s, p, i);
        return;
      }
      i := i + 1;
    }
    i := -1;
  }

  class BackgroundService {
    var folders: Option<seq<Folder>>
    var chats: Option<seq<Chat>>
    var settings: Option<Settings>
    var pendingFolderLink: Option<FolderLink>
    var pendingSubchatLink: Option<SubchatLink>
    var pendingChatLink: Option<ChatLink>

    /** The storage the fields hold. */
    function State(): Storage
      reads this
    {
      Storage(folders, chats, settings, pendingFolderLink, pendingSubchatLink, pendingChatLink)
    }

    /** The service starts on what storage already holds and initializes it. */
    constructor (stored: Storage)
      ensures State() == Store.InitializeStorage(stored)
    {
      folders := stored.folders;
      chats := stored.chats;
      settings := stored.settings;
      pendingFolderLink := stored.pendingFolderLink;
      pendingSubchatLink := stored.pendingSubchatLink;
      pendingChatLink := stored.pendingChatLink;
      new;
      InitializeStorage();
    }

    method InitializeStorage()
      modifies this
      ensures State() == Store.InitializeStorage(old(State()))
    {
      if folders.None? {
        folders := Some([ROOT_FOLDER]);
        chats := Some([]);
        settings := Some(DEFAULT_SETTINGS);
      }
    }

    method GetAllData() returns (d: AllData)
      ensures d == Store.GetAllData(State())
    {
      d := AllData(folders.GetOr([]), chats.GetOr([]), settings.GetOr(DEFAULT_SETTINGS));
    }

    /** Returns the new folder's id, as `createFolder` does. */
    method CreateFolder(name: string, parentId: Option<string>, id: string, now: string) returns (newId: string)
      modifies this
      ensures State() == Store.CreateFolder(old(State()), name, parentId, id, now)
      ensures newId == id
    {
      var fs := folders.GetOr([]);
      var folder := Folder(id, Trim(name), OrNull(parentId), false, Some(now), None);
      fs := fs + [folder];
      folders := Some(fs);
      newId := folder.id;
    }

    method DeleteFolder(folderId: string)
      modifies this
      ensures State() == Store.DeleteFolder(old(State()), folderId)
    {
      var fs := Filter(folders.GetOr([]), Store.NotFolder(folderId));
      var cs := Filter(chats.GetOr([]), Store.OutsideFolder(folderId));
      folders, chats := Some(fs), Some(cs);
    }

    /** `deleteChat`: stores the filtered chat list. */
    method DeleteChat(chatId: string)
      modifies this
      ensures State() == Store.DeleteChat(old(State()), chatId)
    {
      chats := Some(Filter(chats.GetOr([]), Store.NotChat(chatId)));
    }

    method RenameChat(chatId: string, newTitle: string, now: string)
      modifies this
      ensures State() == Store.RenameChat(old(State()), chatId, newTitle, now)
    {
      var cs := chats.GetOr([]);
      var i := FindIndex(cs, HasChatId(chatId));
      if i != -1 {
        var c := cs[i];
        c := c.(title := newTitle);
        c := c.(updatedAt := Some(now));
        assert c == Store.Renamed(cs[i], newTitle, now);
        chats := Some(cs[i := c]);
      }
    }

    /** `linkTabToChat`; the tab id it is passed plays no part. */
    method LinkTabToChat(url: string, chatId: string, now: string)
      modifies this
      ensures State() == Store.LinkChatUrl(old(State()), chatId, url, now)
    {
      var cs := chats.GetOr([]);
      var i := FindIndex(cs, HasChatId(chatId));
      if i != -1 {
        var c := cs[i];
        c := c.(url := Some(url));
        c := c.(updatedAt := Some(now));
        assert c == Store.WithUrl(cs[i], url, now);
        chats := Some(cs[i := c]);
      }
    }

    /** `linkTabToSubchat`: the same write as `linkTabToChat`. */
    method LinkTabToSubchat(url: string, subchatId: string, now: string)
      modifies this
      ensures State() == Store.LinkChatUrl(old(State()), subchatId, url, now)
    {
      var cs := chats.GetOr([]);
      var i := FindIndex(cs, HasChatId(subchatId));
      if i != -1 {
        var c := cs[i];
        c := c.(url := Some(url));
        c := c.(updatedAt := Some(now));
        assert c == Store.WithUrl(cs[i], url, now);
        chats := Some(cs[i := c]);
      }
    }

    method LinkTabToFolder(tab: Option<TabId>, url: string, title: Option<string>, chatId: string, now: string)
      modifies this
      ensures State() == Store.LinkTabToFolder(old(State()), tab, url, title, chatId, now)
    {
      var link := pendingFolderLink;
      if link.Some? && tab == Some(link.value.tabId) {
        var fs := folders.GetOr([]);
        var cs := chats.GetOr([]);
        var i := FindIndex(fs, HasFolderId(link.value.folderId));
        if i != -1 {
          fs := fs[i := fs[i].(chatUrl := Some(url))];
          var chat := Chat(chatId, if Truthy(title) then title.value else "New Chat", Some(url),
                           Some(link.value.folderId), None, None, None, now, None);
          cs := cs + [chat];
          folders, chats, pendingFolderLink := Some(fs), Some(cs), None;
        }
      }
    }

    method CheckPendingLinks(url: string, title: Option<string>, tab: Option<TabId>, chatId: string, now: string)
      returns (r: LinkResult)
      modifies this
      ensures Store.CheckPendingLinks(old(State()), url, title, tab, chatId, now) == Store.Checked(State(), r)
    {
      if pendingFolderLink.Some? && tab == Some(pendingFolderLink.value.tabId) {
        LinkTabToFolder(tab, url, title, chatId, now);
        pendingFolderLink := None;
        return Linked(FolderKind);
      }
      if pendingSubchatLink.Some? && tab == Some(pendingSubchatLink.value.tabId) {
        LinkTabToSubchat(url, pendingSubchatLink.value.subchatId, now);
        pendingSubchatLink := None;
        return Linked(SubchatKind);
      }
      if pendingChatLink.Some? && tab == Some(pendingChatLink.value.tabId) {
        LinkTabToChat(url, pendingChatLink.value.chatId, now);
        pendingChatLink := None;
        return Linked(ChatKind);
      }
      return NotLinked;
    }

    method CreateChatInFolder(folderId: string, title: string, llm: string, chatId: string, now: string,
                              tab: Option<TabId>, stamp: int) returns (tabUrl: string)
      modifies this
      ensures State() == Store.CreateChatInFolder(old(State()), folderId, title, llm, chatId, now, tab, stamp)
      ensures tabUrl == LLMUrl(llm)
    {
      var cs := chats.GetOr([]);
      tabUrl := LLMUrl(llm);
      var chat := Chat(chatId, title, None, Some(folderId), None, Some(llm), Some(LLMName(llm)), now, Some(now));
      cs := cs + [chat];
      chats := Some(cs);
      if tab.Some? {
        pendingChatLink := Some(ChatLink(chatId, tab.value, title, llm, stamp));
      }
    }

    /** Returns the error the handler throws, or the URL of the tab it opens. */
    method CreateSubchat(parentChatId: string, title: string, llm: string, subchatId: string, now: string,
                         tab: Option<TabId>, stamp: int) returns (r: Result<string, string>)
      modifies this
      ensures match Store.CreateSubchat(old(State()), parentChatId, title, llm, subchatId, now, tab, stamp)
        case Failure(e) => r == Failure(e) && State() == old(State())
        case Success(s) => r == Success(LLMUrl(llm)) && State() == s
    {
      var cs := chats.GetOr([]);
      var i := FindIndex(cs, HasChatId(parentChatId));
      if i == -1 {
        return Failure(Store.PARENT_NOT_FOUND);
      }
      var parent := cs[i];
      var subchat := Chat(subchatId, title, None, parent.folderId, Some(parentChatId), Some(llm), Some(LLMName(llm)), now, Some(now));
      cs := cs + [subchat];
      chats := Some(cs);
      if tab.Some? {
        pendingSubchatLink := Some(SubchatLink(subchatId, tab.value, title, llm, stamp));
      }
      r := Success(LLMUrl(llm));
    }

    /** The URL `openFolderChat` opens in a new tab, if any. */
    method OpenFolderChat(folderId: string) returns (tabUrl: Option<string>)
      ensures tabUrl == Store.OpenFolderChat(State(), folderId)
    {
      var fs := folders.GetOr([]);
      var i := FindIndex(fs, HasFolderId(folderId));
      if i != -1 && Truthy(fs[i].chatUrl) {
        tabUrl := fs[i].chatUrl;
      } else {
        tabUrl := None;
      }
    }

    /** The `chrome.tabs.onUpdated` listener. */
    method OnTabUpdated(tabId: TabId, changedTitle: Option<string>, tabUrl: Url, tabTitle: Option<string>,
                        chatId: string, now: string)
      modifies this
      ensures State() == Store.OnTabUpdated(old(State()), tabId, changedTitle, tabUrl, tabTitle, chatId, now)
    {
      if tabUrl.text != "" && IsValidLLMUrl(tabUrl) {
        if IsConversationUrl(tabUrl) || (Truthy(changedTitle) && Contains(tabUrl.text, "gemini.google.com/app")) {
          var _ := CheckPendingLinks(tabUrl.text, tabTitle, Some(tabId), chatId, now);
        }
      }
    }

    /** `handleMessage`: dispatches on the message type and builds the reply. */
    method HandleMessage(m: Store.Message, sender: Option<TabId>, env: Store.Env) returns (reply: Store.Reply, openedTab: Option<string>)
      modifies this
      ensures Store.HandleMessage(old(State()), m, sender, env) == Store.Handled(State(), reply, openedTab)
    {
      openedTab := None;
      match m {
        case GetAllDataMsg =>
          var d := GetAllData();
          reply := Store.OkData(d);
        case CreateFolderMsg(name, parentId) =>
          var _ := CreateFolder(name, parentId, env.id, env.now);
          reply := Store.Ok;
        case DeleteFolderMsg(folderId) =>
          DeleteFolder(folderId);
          reply := Store.Ok;
        case DeleteChatMsg(chatId) =>
          DeleteChat(chatId);
          reply := Store.Ok;
        case OpenFolderChatMsg(folderId) =>
          openedTab := OpenFolderChat(folderId);
          reply := Store.Ok;
        case RenameChatMsg(chatId, newTitle) =>
          RenameChat(chatId, newTitle, env.now);
          reply := Store.Ok;
        case CreateSubchatMsg(parentChatId, title, llm) =>
          var r := CreateSubchat(parentChatId, title, llm, env.id, env.now, env.tab, env.stamp);
          if r.Failure? {
            reply := Store.Error(r.error);
          } else {
            reply, openedTab := Store.Ok, Some(r.value);
          }
        case CreateChatInFolderMsg(folderId, title, llm) =>
          var u := CreateChatInFolder(folderId, title, llm, env.id, env.now, env.tab, env.stamp);
          reply, openedTab := Store.Ok, Some(u);
        case CheckPendingLinksMsg(url, title) =>
          var r := CheckPendingLinks(url, title, sender, env.id, env.now);
          reply := Store.OkLink(r);
        case SaveChatMsg(_, _) =>
          reply := Store.Ok;
        case UnknownMsg =>
          reply := Store.Error(Store.UNKNOWN_MESSAGE);
      }
    }
  }
}
