/**
 * The stored connection profiles of the file-manager backend: a flat JSON
 * list whose items are folders (with an `id` and an optional list of
 * `connections`) and top-level connections (with an optional `folderId`).
 * `add_connection` places a new connection into its folder or at the top
 * level; `get_connections` builds the folder/top-level view.  Loading and
 * saving the JSON file are left to the caller: the methods take the loaded
 * list and return the list to save or to send.
 */
module ConnectionTree {
  import opened Wrappers

  /** The `folderId` key of a connection: absent, JSON null, or a string. */
  datatype FolderRef = NoKey | NullRef | Ref(id: string)

  /** A connection profile; fields the two operations never look at are not modelled. */
  datatype Connection = Connection(name: string, folderId: FolderRef)

  /** One item of the stored list, by its `type` field. */
  datatype Item =
    | Folder(id: string, name: string, connections: Option<seq<Connection>>)
    | Conn(conn: Connection)
    | Other(kind: string)

  /** Python truthiness of `connection.get('folderId')`. */
  predicate HasFolder(f: FolderRef) {
    f.Ref? && f.id != ""
  }

  /** `item['type'] == 'folder' and item['id'] == folderId`. */
  predicate IsFolderWithId(item: Item, id: string) {
    item.Folder? && item.id == id
  }

  /** The index of the first folder with the given id, if there is one. */
  function FirstFolder(config: seq<Item>, id: string): (r: Option<nat>)
    ensures r.Some? ==> r.value < |config| && IsFolderWithId(config[r.value], id)
    ensures r.Some? ==> forall j :: 0 <= j < r.value ==> !IsFolderWithId(config[j], id)
    ensures r.None? ==> forall j :: 0 <= j < |config| ==> !IsFolderWithId(config[j], id)
    decreases |config|
  {
    if config == [] then None
    else if IsFolderWithId(config[0], id) then Some(0)
    else match FirstFolder(config[1..], id)
      case None => None
      case Some(k) => Some(k + 1)
  }

  /** The folder's connections, `[]` when the key is missing. */
  function ConnectionsOf(folder: Item): seq<Connection>
    requires folder.Folder?
  {
    if folder.connections.Some? then folder.connections.value else []
  }

  /** The folder with `conn` appended to its connections (the list created if missing). */
  function WithConnection(folder: Item, conn: Connection): (r: Item)
    requires folder.Folder?
    ensures r.Folder? && r.id == folder.id && r.name == folder.name
    ensures r.connections == Some(ConnectionsOf(folder) + [conn])
  {
    Folder(folder.id, folder.name, Some(ConnectionsOf(folder) + [conn]))
  }

  /**
   * `add_connection`: with a non-empty `folderId`, the connection is appended
   * to the first folder with that id and every other item is kept; when no
   * folder matches, nothing changes.  Without one, it is appended at the end
   * of the list.
   */
  method AddConnection(config: seq<Item>, conn: Connection) returns (saved: seq<Item>)
    ensures !HasFolder(conn.folderId) ==> saved == config + [Conn(conn)]
    ensures HasFolder(conn.folderId) && FirstFolder(config, conn.folderId.id).None? ==> saved == config
    ensures HasFolder(conn.folderId) && FirstFolder(config, conn.folderId.id).Some? ==>
              var i := FirstFolder(config, conn.folderId.id).value;
              |saved| == |config| && saved[i] == WithConnection(config[i], conn)
              && forall j :: 0 <= j < |config| && j != i ==> saved[j] == config[j]
  {
    saved := config;
    if !HasFolder(conn.folderId) {
      saved := saved + [Conn(conn)];
      return;
    }
    var id := conn.folderId.id;
    var i := 0;
    while i < |saved|
      invariant 0 <= i <= |saved|
      invariant saved == config
      invariant forall j :: 0 <= j < i ==> !IsFolderWithId(config[j], id)
    {
      if saved[i].Folder? && saved[i].id == id {
        FirstFolderIs(config, id, i);
        saved := saved[i := WithConnection(saved[i], conn)];
        return;
      }
      i := i + 1;
    }
  }

  /** The first matching folder is at `i` when `i` matches and nothing before it does. */
  lemma {:induction false} FirstFolderIs(config: seq<Item>, id: string, i: nat)
    requires i < |config| && IsFolderWithId(config[i], id)
    requires forall j :: 0 <= j < i ==> !IsFolderWithId(config[j], id)
    ensures FirstFolder(config, id) == Some(i)
  {
    if i > 0 {
      FirstFolderIs(config[1..], id, i - 1);
    }
  }

  /** `get_connections` keeps folders and connections without a `folderId` key. */
  predicate Listed(item: Item) {
    item.Folder? || (item.Conn? && item.conn.folderId.NoKey?)
  }

  /** How a kept item is shown: a folder's missing `connections` defaults to `[]`. */
  function Shown(item: Item): (r: Item)
    ensures item.Folder? ==> r == Folder(item.id, item.name, Some(ConnectionsOf(item)))
    ensures !item.Folder? ==> r == item
  {
    if item.Folder? && item.connections.None? then Folder(item.id, item.name, Some([])) else item
  }

  /** The folder/top-level view of the stored list, in stored order. */
  function TopLevelView(config: seq<Item>): (r: seq<Item>)
    ensures |r| <= |config|
    ensures forall k :: 0 <= k < |r| ==> Listed(r[k]) && (r[k].Folder? ==> r[k].connections.Some?)
    decreases |config|
  {
    if config == [] then []
    else (if Listed(config[0]) then [Shown(config[0])] else []) + TopLevelView(config[1..])
  }

  /** The view of a concatenation is the concatenation of the views: order is kept. */
  lemma {:induction false} TopLevelViewAppend(a: seq<Item>, b: seq<Item>)
    ensures TopLevelView(a + b) == TopLevelView(a) + TopLevelView(b)
    decreases |a|
  {
    if a == [] {
      assert a + b == b;
    } else {
      assert (a + b)[1..] == a[1..] + b;
      TopLevelViewAppend(a[1..], b);
    }
  }

  /** An item is in the view exactly when it is how some listed stored item is shown. */
  lemma {:induction false} TopLevelViewMembers(config: seq<Item>, x: Item)
    ensures x in TopLevelView(config) <==> exists k :: 0 <= k < |config| && Listed(config[k]) && Shown(config[k]) == x
    decreases |config|
  {
    if config != [] {
      TopLevelViewMembers(config[1..], x);
      if x in TopLevelView(config[1..]) {
        var k :| 0 <= k < |config[1..]| && Listed(config[1..][k]) && Shown(config[1..][k]) == x;
        assert config[k + 1] == config[1..][k];
      }
      if exists k :: 0 <= k < |config| && Listed(config[k]) && Shown(config[k]) == x {
        var k :| 0 <= k < |config| && Listed(config[k]) && Shown(config[k]) == x;
        if k > 0 {
          assert config[1..][k - 1] == config[k];
        }
      }
    }
  }

  /** Taking the view twice gives the view. */
  lemma {:induction false} TopLevelViewIdempotent(config: seq<Item>)
    ensures TopLevelView(TopLevelView(config)) == TopLevelView(config)
    decreases |config|
  {
    if config != [] {
      var head := if Listed(config[0]) then [Shown(config[0])] else [];
      TopLevelViewIdempotent(config[1..]);
      TopLevelViewAppend(head, TopLevelView(config[1..]));
      if Listed(config[0]) {
        assert TopLevelView(head) == head by {
          assert head[1..] == [];
        }
      }
    }
  }

  /** `get_connections`: the view built item by item. */
  method GetConnections(config: seq<Item>) returns (result: seq<Item>)
    ensures result == TopLevelView(config)
  {
    result := [];
    var i := 0;
    while i < |config|
      invariant 0 <= i <= |config|
      invariant result == TopLevelView(config[..i])
    {
      var item := config[i];
      TopLevelViewAppend(config[..i], [item]);
      assert config[..i + 1] == config[..i] + [item];
      if item.Folder? {
        var folder := item;
        if folder.connections.None? {
          folder := Folder(item.id, item.name, Some([]));
        }
        result := result + [folder];
      } else if item.Conn? && item.conn.folderId.NoKey? {
        result := result + [item];
      }
      i := i + 1;
    }
    assert config[..i] == config;
  }

  /**
   * A connection added without any `folderId` key shows up last in the
   * view; one added with `folderId` null or empty is stored at the top
   * level but the view leaves it out, since the view tests for the key.
   */
  lemma AddedTopLevelShown(config: seq<Item>, conn: Connection)
    requires !HasFolder(conn.folderId)
    ensures conn.folderId.NoKey? ==> TopLevelView(config + [Conn(conn)]) == TopLevelView(config) + [Conn(conn)]
    ensures !conn.folderId.NoKey? ==> TopLevelView(config + [Conn(conn)]) == TopLevelView(config)
  {
    TopLevelViewAppend(config, [Conn(conn)]);
  }

  /** A connection added into a folder appears in the view under that folder and nowhere at top level. */
  lemma AddedToFolderShown(config: seq<Item>, conn: Connection, i: nat)
    requires HasFolder(conn.folderId) && FirstFolder(config, conn.folderId.id) == Some(i)
    ensures Folder(config[i].id, config[i].name, Some(ConnectionsOf(config[i]) + [conn]))
              in TopLevelView(config[i := WithConnection(config[i], conn)])
    ensures Conn(conn) !in TopLevelView(config[i := WithConnection(config[i], conn)])
  {
    var saved := config[i := WithConnection(config[i], conn)];
    var shown := Folder(config[i].id, config[i].name, Some(ConnectionsOf(config[i]) + [conn]));
    TopLevelViewMembers(saved, shown);
    assert Listed(saved[i]) && Shown(saved[i]) == shown;
    TopLevelViewMembers(saved, Conn(conn));
  }
}
