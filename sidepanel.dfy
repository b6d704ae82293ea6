/** The side panel (TreeManager/sidepanel/sidepanel-simple.js): the set of
    collapsed items, the choice of visible rows that `renderTree` and
    `renderChatListItem` make (no markup), and the rename and modal-confirm
    rules. */
module SidePanel {
  import opened Wrappers
  import opened Strings
  import opened Seqs
  import opened Providers
  import opened Records
  import Store

  // ---------------------------------------------------------------------
  // Collapse keys

  function FolderKey(id: string): string {
    "folder-" + id
  }

  function ChatKey(id: string): string {
    "chat-" + id
  }

  /** The two key families never collide, and each names exactly one id. */
  lemma KeysAreDistinct(a: string, b: string)
    ensures FolderKey(a) != ChatKey(b)
    ensures FolderKey(a) == FolderKey(b) <==> a == b
    ensures ChatKey(a) == ChatKey(b) <==> a == b
  {
    assert FolderKey(a)[0] == 'f' && ChatKey(b)[0] == 'c';
    if FolderKey(a) == FolderKey(b) {
      assert a == FolderKey(a)[7..];
    }
    if ChatKey(a) == ChatKey(b) {
      assert a == ChatKey(a)[5..];
    }
  }

  /** `has(key) ? delete(key) : add(key)` on the collapsed set. */
  function Toggle(collapsed: set<string>, key: string): set<string> {
    if key in collapsed then collapsed - {key} else collapsed + {key}
  }

  /** Toggling flips the membership of its key and of no other, so toggling
      twice restores the set. */
  lemma ToggleFlipsOneKey(collapsed: set<string>, key: string, other: string)
    ensures key in Toggle(collapsed, key) <==> key !in collapsed
    ensures other != key ==> (other in Toggle(collapsed, key) <==> other in collapsed)
    ensures Toggle(Toggle(collapsed, key), key) == collapsed
  {
  }

  // ---------------------------------------------------------------------
  // Which chats belong where

  function InFolder(id: string): Chat -> bool {
    (c: Chat) => c.folderId == Some(id)
  }

  /** `c.folder_id === folder.id && !c.parent_chat_id` */
  function TopLevelIn(id: string): Chat -> bool {
    (c: Chat) => c.folderId == Some(id) && !Truthy(c.parentChatId)
  }

  /** `c.folder_id === folder.id && c.parent_chat_id` (the rest of a folder's count) */
  function NestedIn(id: string): Chat -> bool {
    (c: Chat) => c.folderId == Some(id) && Truthy(c.parentChatId)
  }

  /** `c.parent_chat_id === chat.id` */
  function ChildOf(id: string): Chat -> bool {
    (c: Chat) => c.parentChatId == Some(id)
  }

  /** `!c.folder_id && !c.parent_chat_id` */
  function IsOrphan(): Chat -> bool {
    (c: Chat) => !Truthy(c.folderId) && !Truthy(c.parentChatId)
  }

  /** `!f.parent_id` */
  function IsRootFolder(): Folder -> bool {
    (f: Folder) => !Truthy(f.parentId)
  }

  function Subchats(chats: seq<Chat>, id: string): seq<Chat> {
    Filter(chats, ChildOf(id))
  }

  /** The number on a folder's badge and the test for its toggle button. */
  function FolderCount(chats: seq<Chat>, id: string): nat {
    if |chats| == 0 then 0
    else (if chats[0].folderId == Some(id) then 1 else 0) + FolderCount(chats[1..], id)
  }

  /** The count is the length of `chats.filter(c => c.folder_id === id)`. */
  lemma {:induction false} FolderCountIsFilterLength(chats: seq<Chat>, id: string)
    ensures FolderCount(chats, id) == |Filter(chats, InFolder(id))|
  {
    if |chats| > 0 {
      FolderCountIsFilterLength(chats[1..], id);
    }
  }

  /** The badge counts every chat filed in the folder, top-level chats and
      subchats alike; it and the toggle button appear only for a positive
      count, and a folder without a badge lists no chats. */
  lemma FolderCountIncludesSubchats(chats: seq<Chat>, id: string)
    ensures FolderCount(chats, id) == |Filter(chats, TopLevelIn(id))| + |Filter(chats, NestedIn(id))|
    ensures FolderCount(chats, id) == 0 ==> Filter(chats, TopLevelIn(id)) == []
  {
    FolderCountIsFilterLength(chats, id);
    FilterPartition(chats, InFolder(id), TopLevelIn(id), NestedIn(id), (c: Chat) => !Truthy(c.parentChatId));
  }

  // ---------------------------------------------------------------------
  // Visible rows

  datatype RowKind = FolderRow | ChatRow

  /** One rendered list item: what it shows and how deep it is indented. */
  datatype Row = Row(kind: RowKind, id: string, depth: nat)

  /** The panel shows either the empty-state message or a list of rows. */
  datatype Tree = EmptyState | Rows(rows: seq<Row>)

  /** `renderChatListItem(chat, depth)`: the chat's row, then, when it has
      subchats and is expanded, each subchat's block one level deeper.
      `fuel` bounds the nesting; it runs out only on a cyclic parent chain. */
  function ChatBlock(chats: seq<Chat>, collapsed: set<string>, c: Chat, depth: nat, fuel: nat): seq<Row>
    decreases fuel, 0
  {
    var subs := Subchats(chats, c.id);
    [Row(ChatRow, c.id, depth)]
    + (if fuel > 0 && |subs| > 0 && ChatKey(c.id) !in collapsed
       then ChatBlocks(chats, collapsed, subs, depth + 1, fuel - 1) else [])
  }

  /** The blocks of a list of chats, in list order. */
  function ChatBlocks(chats: seq<Chat>, collapsed: set<string>, list: seq<Chat>, depth: nat, fuel: nat): seq<Row>
    decreases fuel, |list|
  {
    if |list| == 0 then []
    else ChatBlock(chats, collapsed, list[0], depth, fuel) + ChatBlocks(chats, collapsed, list[1..], depth, fuel)
  }

  /** A root folder's row, then, when it is expanded, the blocks of its
      top-level chats. */
  function FolderBlock(d: AllData, collapsed: set<string>, f: Folder): seq<Row> {
    [Row(FolderRow, f.id, 0)]
    + (if FolderKey(f.id) !in collapsed
       then ChatBlocks(d.chats, collapsed, Filter(d.chats, TopLevelIn(f.id)), 0, |d.chats|) else [])
  }

  function FolderBlocks(d: AllData, collapsed: set<string>, folders: seq<Folder>): seq<Row> {
    if |folders| == 0 then []
    else FolderBlock(d, collapsed, folders[0]) + FolderBlocks(d, collapsed, folders[1..])
  }

  /** `renderTree`: the empty state when there are neither folders nor chats;
      otherwise the root folders' blocks, then the orphan chats' blocks. */
  function RenderTree(d: AllData, collapsed: set<string>): Tree {
    if |d.folders| == 0 && |d.chats| == 0 then EmptyState
    else Rows(FolderBlocks(d, collapsed, Filter(d.folders, IsRootFolder()))
              + ChatBlocks(d.chats, collapsed, Filter(d.chats, IsOrphan()), 0, |d.chats|))
  }

  // Reference views of a row list.

  function IsFolderRow(): Row -> bool {
    (r: Row) => r.kind == FolderRow
  }

  function AtDepth(depth: nat): Row -> bool {
    (r: Row) => r.depth == depth
  }

  /** One row per folder, at depth 0. */
  function FolderRowsOf(folders: seq<Folder>): seq<Row> {
    if |folders| == 0 then [] else [Row(FolderRow, folders[0].id, 0)] + FolderRowsOf(folders[1..])
  }

  /** One row per chat, at the given depth. */
  function ChatRowsOf(list: seq<Chat>, depth: nat): seq<Row> {
    if |list| == 0 then [] else [Row(ChatRow, list[0].id, depth)] + ChatRowsOf(list[1..], depth)
  }

  /** The top of the tree without any nesting: each root folder followed, when
      expanded, by its top-level chats; then the orphans. */
  function OutlineFolders(d: AllData, collapsed: set<string>, folders: seq<Folder>): seq<Row> {
    if |folders| == 0 then []
    else
      var f := folders[0];
      [Row(FolderRow, f.id, 0)]
      + (if FolderKey(f.id) !in collapsed then ChatRowsOf(Filter(d.chats, TopLevelIn(f.id)), 0) else [])
      + OutlineFolders(d, collapsed, folders[1..])
  }

  function Outline(d: AllData, collapsed: set<string>): seq<Row> {
    OutlineFolders(d, collapsed, Filter(d.folders, IsRootFolder()))
    + ChatRowsOf(Filter(d.chats, IsOrphan()), 0)
  }

  /** Every row is a chat row indented at least `depth` levels. */
  predicate ChatRowsFrom(rows: seq<Row>, depth: nat) {
    forall i :: 0 <= i < |rows| ==> rows[i].kind == ChatRow && rows[i].depth >= depth
  }

  /** A chat's block starts with its own row; everything after it is a chat
      row nested deeper. */
  lemma {:induction false} ChatBlockShape(chats: seq<Chat>, collapsed: set<string>, c: Chat, depth: nat, fuel: nat)
    ensures |ChatBlock(chats, collapsed, c, depth, fuel)| >= 1
    ensures ChatBlock(chats, collapsed, c, depth, fuel)[0] == Row(ChatRow, c.id, depth)
    ensures ChatRowsFrom(ChatBlock(chats, collapsed, c, depth, fuel)[1..], depth + 1)
    decreases fuel, 0
  {
    var subs := Subchats(chats, c.id);
    var b := ChatBlock(chats, collapsed, c, depth, fuel);
    if fuel > 0 && |subs| > 0 && ChatKey(c.id) !in collapsed {
      ChatBlocksRows(chats, collapsed, subs, depth + 1, fuel - 1);
      assert b[1..] == ChatBlocks(chats, collapsed, subs, depth + 1, fuel - 1);
    } else {
      assert b[1..] == [];
    }
  }

  /** Blocks hold only chat rows at the given depth or deeper. */
  lemma {:induction false} ChatBlocksRows(chats: seq<Chat>, collapsed: set<string>, list: seq<Chat>, depth: nat, fuel: nat)
    ensures ChatRowsFrom(ChatBlocks(chats, collapsed, list, depth, fuel), depth)
    decreases fuel, |list|
  {
    if |list| > 0 {
      var head := ChatBlock(chats, collapsed, list[0], depth, fuel);
      var tail := ChatBlocks(chats, collapsed, list[1..], depth, fuel);
      ChatBlockShape(chats, collapsed, list[0], depth, fuel);
      ChatBlocksRows(chats, collapsed, list[1..], depth, fuel);
      var b := head + tail;
      forall i | 0 <= i < |b|
        ensures b[i].kind == ChatRow && b[i].depth >= depth
      {
        if i == 0 {
          assert b[i] == head[0];
        } else if i < |head| {
          assert b[i] == head[1..][i - 1];
        } else {
          assert b[i] == tail[i - |head|];
        }
      }
    }
  }

  /** The rows of a list's blocks at exactly its depth are the listed chats,
      in order. */
  lemma {:induction false} ChatBlocksShape(chats: seq<Chat>, collapsed: set<string>, list: seq<Chat>, depth: nat, fuel: nat)
    ensures ChatRowsFrom(ChatBlocks(chats, collapsed, list, depth, fuel), depth)
    ensures Filter(ChatBlocks(chats, collapsed, list, depth, fuel), AtDepth(depth)) == ChatRowsOf(list, depth)
    decreases |list|
  {
    ChatBlocksRows(chats, collapsed, list, depth, fuel);
    if |list| > 0 {
      var head := ChatBlock(chats, collapsed, list[0], depth, fuel);
      var tail := ChatBlocks(chats, collapsed, list[1..], depth, fuel);
      ChatBlockShape(chats, collapsed, list[0], depth, fuel);
      ChatBlocksShape(chats, collapsed, list[1..], depth, fuel);
      var first, deeper := [head[0]], head[1..];
      assert head == first + deeper;
      FilterKeepsNone(deeper, AtDepth(depth));
      assert Filter(first, AtDepth(depth)) == first;
      FilterConcat(first, deeper, AtDepth(depth));
      FilterConcat(head, tail, AtDepth(depth));
    }
  }

  /** Chat blocks hold no folder rows. */
  lemma ChatBlocksHaveNoFolders(chats: seq<Chat>, collapsed: set<string>, list: seq<Chat>, depth: nat, fuel: nat)
    ensures Filter(ChatBlocks(chats, collapsed, list, depth, fuel), IsFolderRow()) == []
  {
    ChatBlocksShape(chats, collapsed, list, depth, fuel);
    FilterKeepsNone(ChatBlocks(chats, collapsed, list, depth, fuel), IsFolderRow());
  }

  lemma {:induction false} FolderBlocksFolders(d: AllData, collapsed: set<string>, folders: seq<Folder>)
    ensures Filter(FolderBlocks(d, collapsed, folders), IsFolderRow()) == FolderRowsOf(folders)
  {
    if |folders| > 0 {
      var f := folders[0];
      var first := [Row(FolderRow, f.id, 0)];
      var rest := if FolderKey(f.id) !in collapsed
        then ChatBlocks(d.chats, collapsed, Filter(d.chats, TopLevelIn(f.id)), 0, |d.chats|) else [];
      assert FolderBlock(d, collapsed, f) == first + rest;
      ChatBlocksHaveNoFolders(d.chats, collapsed, Filter(d.chats, TopLevelIn(f.id)), 0, |d.chats|);
      assert Filter(rest, IsFolderRow()) == [];
      assert Filter(first, IsFolderRow()) == first;
      FilterConcat(first, rest, IsFolderRow());
      FilterConcat(FolderBlock(d, collapsed, f), FolderBlocks(d, collapsed, folders[1..]), IsFolderRow());
      FolderBlocksFolders(d, collapsed, folders[1..]);
    }
  }

  lemma {:induction false} FolderBlocksOutline(d: AllData, collapsed: set<string>, folders: seq<Folder>)
    ensures Filter(FolderBlocks(d, collapsed, folders), AtDepth(0)) == OutlineFolders(d, collapsed, folders)
  {
    if |folders| > 0 {
      var f := folders[0];
      var top := Filter(d.chats, TopLevelIn(f.id));
      var rest := if FolderKey(f.id) !in collapsed then ChatBlocks(d.chats, collapsed, top, 0, |d.chats|) else [];
      ChatBlocksShape(d.chats, collapsed, top, 0, |d.chats|);
      assert Filter(rest, AtDepth(0)) == if FolderKey(f.id) !in collapsed then ChatRowsOf(top, 0) else [];
      FilterConcat([Row(FolderRow, f.id, 0)], rest, AtDepth(0));
      FilterConcat(FolderBlock(d, collapsed, f), FolderBlocks(d, collapsed, folders[1..]), AtDepth(0));
      FolderBlocksOutline(d, collapsed, folders[1..]);
    }
  }

  /** The folder rows of the rendered tree are exactly the folders with a
      falsy `parent_id`, in stored order; nested folders are never shown. */
  lemma RenderTreeFolders(d: AllData, collapsed: set<string>)
    requires |d.folders| > 0 || |d.chats| > 0
    ensures Filter(RenderTree(d, collapsed).rows, IsFolderRow()) == FolderRowsOf(Filter(d.folders, IsRootFolder()))
  {
    var roots := Filter(d.folders, IsRootFolder());
    var orphans := Filter(d.chats, IsOrphan());
    FilterConcat(FolderBlocks(d, collapsed, roots), ChatBlocks(d.chats, collapsed, orphans, 0, |d.chats|), IsFolderRow());
    FolderBlocksFolders(d, collapsed, roots);
    ChatBlocksHaveNoFolders(d.chats, collapsed, orphans, 0, |d.chats|);
  }

  /** The unindented rows of the rendered tree are the outline: each root
      folder, its top-level chats when it is expanded, and the orphan chats
      last. Every other row is a subchat nested under one of them. */
  lemma RenderTreeOutline(d: AllData, collapsed: set<string>)
    requires |d.folders| > 0 || |d.chats| > 0
    ensures Filter(RenderTree(d, collapsed).rows, AtDepth(0)) == Outline(d, collapsed)
  {
    var roots := Filter(d.folders, IsRootFolder());
    var orphans := Filter(d.chats, IsOrphan());
    FilterConcat(FolderBlocks(d, collapsed, roots), ChatBlocks(d.chats, collapsed, orphans, 0, |d.chats|), AtDepth(0));
    FolderBlocksOutline(d, collapsed, roots);
    ChatBlocksShape(d.chats, collapsed, orphans, 0, |d.chats|);
  }

  /** Under an expanded chat with subchats come exactly its subchats, one
      level deeper and in stored order; a collapsed chat, or one without
      subchats, is a single row. */
  lemma ChatBlockChildren(chats: seq<Chat>, collapsed: set<string>, c: Chat, depth: nat, fuel: nat)
    requires fuel > 0
    ensures var b := ChatBlock(chats, collapsed, c, depth, fuel);
      && (ChatKey(c.id) in collapsed || |Subchats(chats, c.id)| == 0 ==> b == [Row(ChatRow, c.id, depth)])
      && (ChatKey(c.id) !in collapsed ==> Filter(b[1..], AtDepth(depth + 1)) == ChatRowsOf(Subchats(chats, c.id), depth + 1))
  {
    var subs := Subchats(chats, c.id);
    var b := ChatBlock(chats, collapsed, c, depth, fuel);
    ChatBlocksShape(chats, collapsed, subs, depth + 1, fuel - 1);
    if |subs| == 0 {
      assert ChatRowsOf(subs, depth + 1) == [];
      assert b[1..] == [];
    } else if ChatKey(c.id) !in collapsed {
      assert b[1..] == ChatBlocks(chats, collapsed, subs, depth + 1, fuel - 1);
    }
  }

  /** The empty state is shown exactly when there are no folders and no chats. */
  lemma RenderTreeEmptyIff(d: AllData, collapsed: set<string>)
    ensures RenderTree(d, collapsed).EmptyState? <==> d.folders == [] && d.chats == []
  {
  }

  // ---------------------------------------------------------------------
  // Collapse all

  /** The keys `collapseAll` adds: every folder with a positive count and
      every chat with at least one subchat. */
  function CollapseAllKeys(d: AllData): set<string> {
    FolderKeysUpTo(d, |d.folders|) + ChatKeysUpTo(d, |d.chats|)
  }

  /** The folder shows a badge and a toggle button. */
  predicate HasBadge(d: AllData, f: Folder) {
    FolderCount(d.chats, f.id) > 0
  }

  /** The chat shows a toggle button for its subchats. */
  predicate HasSubchats(d: AllData, c: Chat) {
    |Subchats(d.chats, c.id)| > 0
  }

  /** The folder keys `collapseAll` has added after visiting `n` folders. */
  function FolderKeysUpTo(d: AllData, n: nat): set<string>
    requires n <= |d.folders|
  {
    if n == 0 then {}
    else
      var f := d.folders[n - 1];
      FolderKeysUpTo(d, n - 1) + (if HasBadge(d, f) then {FolderKey(f.id)} else {})
  }

  /** The chat keys `collapseAll` has added after visiting `n` chats. */
  function ChatKeysUpTo(d: AllData, n: nat): set<string>
    requires n <= |d.chats|
  {
    if n == 0 then {}
    else
      var c := d.chats[n - 1];
      ChatKeysUpTo(d, n - 1) + (if HasSubchats(d, c) then {ChatKey(c.id)} else {})
  }

  lemma FolderKeysStep(d: AllData, i: nat)
    requires i < |d.folders|
    ensures FolderKeysUpTo(d, i + 1)
      == FolderKeysUpTo(d, i) + (if HasBadge(d, d.folders[i]) then {FolderKey(d.folders[i].id)} else {})
  {
  }

  lemma ChatKeysStep(d: AllData, i: nat)
    requires i < |d.chats|
    ensures ChatKeysUpTo(d, i + 1)
      == ChatKeysUpTo(d, i) + (if HasSubchats(d, d.chats[i]) then {ChatKey(d.chats[i].id)} else {})
  {
  }

  lemma {:induction false} FolderKeysUpToIff(d: AllData, n: nat, k: string)
    requires n <= |d.folders|
    ensures k in FolderKeysUpTo(d, n) <==>
      exists j :: 0 <= j < n && HasBadge(d, d.folders[j]) && k == FolderKey(d.folders[j].id)
  {
    if n > 0 {
      var m := n - 1;
      FolderKeysUpToIff(d, m, k);
      FolderKeysStep(d, m);
      if HasBadge(d, d.folders[m]) && k == FolderKey(d.folders[m].id) {
        assert k in FolderKeysUpTo(d, n);
      }
    }
  }

  lemma {:induction false} ChatKeysUpToIff(d: AllData, n: nat, k: string)
    requires n <= |d.chats|
    ensures k in ChatKeysUpTo(d, n) <==>
      exists j :: 0 <= j < n && HasSubchats(d, d.chats[j]) && k == ChatKey(d.chats[j].id)
  {
    if n > 0 {
      var m := n - 1;
      ChatKeysUpToIff(d, m, k);
      ChatKeysStep(d, m);
      if HasSubchats(d, d.chats[m]) && k == ChatKey(d.chats[m].id) {
        assert k in ChatKeysUpTo(d, n);
      }
    }
  }

  /** A key is added by `collapseAll` exactly when it names a folder with a
      positive count or a chat with a subchat. */
  lemma CollapseAllKeysIff(d: AllData, k: string)
    ensures k in CollapseAllKeys(d) <==>
      (exists j :: 0 <= j < |d.folders| && HasBadge(d, d.folders[j]) && k == FolderKey(d.folders[j].id))
      || (exists j :: 0 <= j < |d.chats| && HasSubchats(d, d.chats[j]) && k == ChatKey(d.chats[j].id))
  {
    FolderKeysUpToIff(d, |d.folders|, k);
    ChatKeysUpToIff(d, |d.chats|, k);
  }

  /** Once every key `collapseAll` adds is collapsed, the tree is flat: the
      root folders (with nothing under them), then the orphan chats, all
      unindented. */
  lemma CollapsedTreeIsFlat(d: AllData, collapsed: set<string>)
    requires CollapseAllKeys(d) <= collapsed
    requires |d.folders| > 0 || |d.chats| > 0
    ensures RenderTree(d, collapsed).rows
      == FolderRowsOf(Filter(d.folders, IsRootFolder())) + ChatRowsOf(Filter(d.chats, IsOrphan()), 0)
  {
    var roots := Filter(d.folders, IsRootFolder());
    var orphans := Filter(d.chats, IsOrphan());
    forall i | 0 <= i < |roots| ensures roots[i] in d.folders {
      FilterMembers(d.folders, IsRootFolder(), roots[i]);
    }
    forall i | 0 <= i < |orphans| ensures orphans[i] in d.chats {
      FilterMembers(d.chats, IsOrphan(), orphans[i]);
    }
    FolderBlocksFlat(d, collapsed, roots);
    ChatBlocksFlat(d, collapsed, orphans);
  }

  lemma {:induction false} FolderBlocksFlat(d: AllData, collapsed: set<string>, folders: seq<Folder>)
    requires CollapseAllKeys(d) <= collapsed
    requires forall i :: 0 <= i < |folders| ==> folders[i] in d.folders
    ensures FolderBlocks(d, collapsed, folders) == FolderRowsOf(folders)
  {
    if |folders| > 0 {
      var f := folders[0];
      var j :| 0 <= j < |d.folders| && d.folders[j] == f;
      FolderCountIncludesSubchats(d.chats, f.id);
      if HasBadge(d, f) {
        FolderKeysUpToIff(d, |d.folders|, FolderKey(f.id));
        assert FolderKey(f.id) in collapsed;
      } else {
        assert Filter(d.chats, TopLevelIn(f.id)) == [];
      }
      assert FolderBlock(d, collapsed, f) == [Row(FolderRow, f.id, 0)];
      assert forall i :: 0 <= i < |folders[1..]| ==> folders[1..][i] == folders[i + 1];
      FolderBlocksFlat(d, collapsed, folders[1..]);
    }
  }

  lemma {:induction false} ChatBlocksFlat(d: AllData, collapsed: set<string>, list: seq<Chat>)
    requires CollapseAllKeys(d) <= collapsed
    requires forall i :: 0 <= i < |list| ==> list[i] in d.chats
    ensures ChatBlocks(d.chats, collapsed, list, 0, |d.chats|) == ChatRowsOf(list, 0)
  {
    if |list| > 0 {
      var c := list[0];
      var j :| 0 <= j < |d.chats| && d.chats[j] == c;
      if HasSubchats(d, c) {
        ChatKeysUpToIff(d, |d.chats|, ChatKey(c.id));
        assert ChatKey(c.id) in collapsed;
      }
      assert ChatBlock(d.chats, collapsed, c, 0, |d.chats|) == [Row(ChatRow, c.id, 0)];
      assert forall i :: 0 <= i < |list[1..]| ==> list[1..][i] == list[i + 1];
      ChatBlocksFlat(d, collapsed, list[1..]);
    }
  }

  // ---------------------------------------------------------------------
  // Rename and modal rules

  /** `renameChat` sends `RENAME_CHAT` unless the modal gave nothing (it was
      cancelled, or the title is empty) or the title equals the current one. */
  predicate RenameShouldSend(newTitle: Option<string>, currentTitle: string) {
    Truthy(newTitle) && newTitle.value != currentTitle
  }

  datatype ModalField = TitleField | LlmField

  /** What pressing confirm does: flag a field, or close with the trimmed
      title and, when the dropdown is shown, the chosen `llm`. */
  datatype ModalOutcome = Rejected(field: ModalField) | Confirmed(title: string, llm: Option<string>)

  /** `showInputModal`'s `handleConfirm`. */
  function ModalConfirm(input: string, showDropdown: bool, llmSelected: string): (r: ModalOutcome)
    ensures r.Confirmed? ==> r.title == Trim(input) && r.title != "" && Trim(r.title) == r.title
  {
    var value := Trim(input);
    TrimIdempotent(input);
    if value == "" then Rejected(TitleField)
    else if showDropdown && llmSelected == "" then Rejected(LlmField)
    else Confirmed(value, if showDropdown then Some(llmSelected) else None)
  }

  /** Confirm closes the modal exactly when the trimmed input is not blank and,
      with the dropdown shown, an `llm` was chosen; the title is checked
      first. A confirmed title is never treated as empty by the rename rule,
      which then only skips an unchanged title. */
  lemma ModalConfirmIff(input: string, showDropdown: bool, llmSelected: string, currentTitle: string)
    ensures var r := ModalConfirm(input, showDropdown, llmSelected);
      && (r.Confirmed? <==> (exists i :: 0 <= i < |input| && !IsJsSpace(input[i])) && (showDropdown ==> llmSelected != ""))
      && (r == Rejected(TitleField) <==> forall i :: 0 <= i < |input| ==> IsJsSpace(input[i]))
      && (r.Confirmed? && showDropdown ==> r.llm == Some(llmSelected))
      && (r.Confirmed? ==> (RenameShouldSend(Some(r.title), currentTitle) <==> r.title != currentTitle))
  {
    TrimEmptyIff(input);
  }

  /** The side panel's own `isValidLLMUrl`: false for an empty string, then
      the same host test as the background's. */
  predicate IsValidUrl(u: Url) {
    u.text != "" && u.parsed.Some? && u.parsed.value.hostname in VALID_HOSTS
  }

  /** The side panel and the background accept the same URLs: none that is
      empty or fails to parse, and exactly those on the seven hosts. */
  lemma UrlCheckAgrees(u: Url)
    requires WellFormed(u)
    ensures IsValidUrl(u) <==> IsValidLLMUrl(u)
    ensures IsValidUrl(u) <==> u.parsed.Some? && ProviderOfHost(u.parsed.value.hostname).Some?
  {
    if u.parsed.Some? {
      ValidHostIffProvider(u.parsed.value.hostname);
    }
  }

  // ---------------------------------------------------------------------
  // The panel's state

  class Panel {
    /** `collapsedItems` */
    var collapsed: set<string>
    /** `currentData` */
    var data: AllData

    constructor ()
      ensures collapsed == {} && data.folders == [] && data.chats == []
    {
      collapsed := {};
      data := AllData([], [], DEFAULT_SETTINGS);
    }

    /** What the panel shows. */
    function View(): Tree
      reads this
    {
      RenderTree(data, collapsed)
    }

    method ToggleFolder(folderId: string)
      modifies this
      ensures collapsed == Toggle(old(collapsed), FolderKey(folderId)) && data == old(data)
    {
      var key := FolderKey(folderId);
      if key in collapsed {
        collapsed := collapsed - {key};
      } else {
        collapsed := collapsed + {key};
      }
    }

    method ToggleChat(chatId: string)
      modifies this
      ensures collapsed == Toggle(old(collapsed), ChatKey(chatId)) && data == old(data)
    {
      var key := ChatKey(chatId);
      if key in collapsed {
        collapsed := collapsed - {key};
      } else {
        collapsed := collapsed + {key};
      }
    }

    /** Adds keys and never removes one; afterwards the tree is flat
      (`CollapsedTreeIsFlat`). */
    method CollapseAll()
      modifies this
      ensures collapsed == old(collapsed) + CollapseAllKeys(data) && data == old(data)
    {
      CollapseFolders();
      CollapseChats();
    }

    /** The first loop of `collapseAll`: every folder with a positive count. */
    method CollapseFolders()
      modifies this
      ensures collapsed == old(collapsed) + FolderKeysUpTo(data, |data.folders|) && data == old(data)
    {
      var d := data;
      ghost var base := collapsed;
      var i := 0;
      while i < |d.folders|
        invariant 0 <= i <= |d.folders| && data == d
        invariant collapsed == base + FolderKeysUpTo(d, i)
      {
        var folder := d.folders[i];
        FolderKeysStep(d, i);
        if HasBadge(d, folder) {
          collapsed := collapsed + {FolderKey(folder.id)};
        }
        i := i + 1;
      }
    }

    /** The second loop of `collapseAll`: every chat with a subchat. */
    method CollapseChats()
      modifies this
      ensures collapsed == old(collapsed) + ChatKeysUpTo(data, |data.chats|) && data == old(data)
    {
      var d := data;
      ghost var base := collapsed;
      var i := 0;
      while i < |d.chats|
        invariant 0 <= i <= |d.chats| && data == d
        invariant collapsed == base + ChatKeysUpTo(d, i)
      {
        var chat := d.chats[i];
        ChatKeysStep(d, i);
        if HasSubchats(d, chat) {
          collapsed := collapsed + {ChatKey(chat.id)};
        }
        i := i + 1;
      }
    }

    /** `collapsedItems.clear()`: every item is expanded again. */
    method ExpandAll()
      modifies this
      ensures collapsed == {} && data == old(data)
    {
      collapsed := {};
    }

    /** `loadData`: the reply replaces the data only when it is a successful
      `GET_ALL_DATA` reply; `None` is a failed `sendMessage`. */
    method LoadData(response: Option<Store.Reply>)
      modifies this
      ensures response.Some? && response.value.OkData? ==> data == response.value.data
      ensures !(response.Some? && response.value.OkData?) ==> data == old(data)
      ensures collapsed == old(collapsed)
    {
      if response.Some? && response.value.OkData? {
        data := response.value.data;
      }
    }
  }
}
