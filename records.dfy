/** The records the background service keeps in `chrome.storage.local`
    (TreeManager/background-simple.js): folders, chats, settings and the
    three pending-link slots. A field the source may leave `null` or
    `undefined` is an `Option`. */
module Records {
  import opened Wrappers

  /** A browser tab id, as `chrome.tabs.create` reports it. */
  type TabId = int

  datatype Folder = Folder(
    id: string,
    name: string,
    parentId: Option<string>,
    expanded: bool,
    createdAt: Option<string>,
    chatUrl: Option<string>)

  datatype Chat = Chat(
    id: string,
    title: string,
    url: Option<string>,
    folderId: Option<string>,
    parentChatId: Option<string>,
    llm: Option<string>,
    llmName: Option<string>,
    createdAt: string,
    updatedAt: Option<string>)

  datatype Settings = Settings(autoCapture: bool, theme: string)

  /** `pendingFolderLink`: a folder waiting for the conversation of a tab. */
  datatype FolderLink = FolderLink(folderId: string, tabId: TabId, timestamp: int)

  /** `pendingSubchatLink`: a subchat waiting for the URL of a tab. */
  datatype SubchatLink = SubchatLink(subchatId: string, tabId: TabId, title: string, llm: string, timestamp: int)

  /** `pendingChatLink`: a chat created in a folder waiting for the URL of a tab. */
  datatype ChatLink = ChatLink(chatId: string, tabId: TabId, title: string, llm: string, timestamp: int)

  /** The storage keys the service reads and writes; `None` is an absent
      (or `null`) key. */
  datatype Storage = Storage(
    folders: Option<seq<Folder>>,
    chats: Option<seq<Chat>>,
    settings: Option<Settings>,
    pendingFolderLink: Option<FolderLink>,
    pendingSubchatLink: Option<SubchatLink>,
    pendingChatLink: Option<ChatLink>)
  {
    /** `result.folders || []` */
    function Folders(): seq<Folder> {
      folders.GetOr([])
    }

    /** `result.chats || []` */
    function Chats(): seq<Chat> {
      chats.GetOr([])
    }
  }

  /** The reply to `GET_ALL_DATA`. */
  datatype AllData = AllData(folders: seq<Folder>, chats: seq<Chat>, settings: Settings)

  const ROOT_FOLDER := Folder("root", "Root", None, true, None, None)
  const DEFAULT_SETTINGS := Settings(true, "dark")

  datatype LinkKind = FolderKind | SubchatKind | ChatKind

  /** The reply of `checkPendingLinks`: `{success: true, linked: true, type}`
      or `{success: true, linked: false}`. */
  datatype LinkResult = Linked(kind: LinkKind) | NotLinked

  function HasFolderId(id: string): Folder -> bool {
    (f: Folder) => f.id == id
  }

  function HasChatId(id: string): Chat -> bool {
    (c: Chat) => c.id == id
  }
}
