// The backend's file tree store (src/files.rs): a shared hash map from node id
// to node, with list/create/save/remove handlers.

module FilesServer {
  import opened Wrappers
  import opened Kinds

  /** Node ids are random UUIDs in the server; here the caller supplies them. */
  type Uuid = nat

  datatype FileNode = FileNode(
    id: Uuid,
    name: string,
    nodeType: NodeType,
    size: Option<string>,
    modified: string,
    extension: Option<string>,
    content: Option<string>,
    parent: Option<Uuid>)

  const JustNow := "только что"

  /** Every node is filed under its own id. */
  predicate KeyedById(nodes: map<Uuid, FileNode>) {
    forall k :: k in nodes ==> nodes[k].id == k
  }

  /** The node `create` builds. Files and folders alike get an empty text body
      and a zero size, and no extension. */
  function NewNode(name: string, nodeType: NodeType, parent: Option<Uuid>, id: Uuid): (r: FileNode)
    ensures r.id == id && r.name == name && r.nodeType == nodeType && r.parent == parent
    ensures r.size == Some("0 B") && r.modified == JustNow
    ensures r.extension.None? && r.content == Some("")
  {
    FileNode(id, name, nodeType, Some("0 B"), JustNow, None, Some(""), parent)
  }

  class FsStore {
    var nodes: map<Uuid, FileNode>

    ghost predicate Valid()
      reads this
    {
      KeyedById(nodes)
    }

    /** `new_mock`: two top-level folders and one top-level file. */
    constructor NewMock(publicId: Uuid, srcId: Uuid, packageId: Uuid)
      requires publicId != srcId && publicId != packageId && srcId != packageId
      ensures Valid() && nodes.Keys == {publicId, srcId, packageId}
      ensures nodes[publicId].name == "public" && nodes[publicId].nodeType == Folder
      ensures nodes[srcId].name == "src" && nodes[srcId].nodeType == Folder
      ensures nodes[packageId].name == "package.json" && nodes[packageId].nodeType == File
      ensures forall k :: k in nodes ==> nodes[k].parent.None?
    {
      nodes := map[
        publicId := FileNode(publicId, "public", Folder, None, "2 часа назад", None, None, None),
        srcId := FileNode(srcId, "src", Folder, None, "1 час назад", None, None, None),
        packageId := FileNode(packageId, "package.json", File, Some("2.1 KB"), "3 дня назад", Some("json"),
                              Some("{\n  \"name\": \"project\"\n}"), None)
      ];
    }

    /** `list`: every stored node once, in the map's (unspecified) iteration order. */
    method List() returns (r: seq<FileNode>)
      ensures |r| == |nodes|
      ensures forall k :: k in nodes ==> nodes[k] in r
      ensures forall i :: 0 <= i < |r| ==> r[i] in nodes.Values
    {
      r := [];
      var rest := nodes.Keys;
      while rest != {}
        invariant rest <= nodes.Keys
        invariant |r| + |rest| == |nodes|
        invariant forall k :: k in nodes && k !in rest ==> nodes[k] in r
        invariant forall i :: 0 <= i < |r| ==> r[i] in nodes.Values
        decreases |rest|
      {
        var k :| k in rest;
        r := r + [nodes[k]];
        rest := rest - {k};
      }
    }

    /** `create`: files the new node under its id. */
    method Create(name: string, nodeType: NodeType, parent: Option<Uuid>, id: Uuid) returns (node: FileNode)
      requires Valid()
      modifies this
      ensures Valid()
      ensures node == NewNode(name, nodeType, parent, id)
      ensures nodes == old(nodes)[id := node]
      ensures id !in old(nodes) ==> |nodes| == |old(nodes)| + 1
    {
      node := NewNode(name, nodeType, parent, id);
      nodes := nodes[id := node];
    }

    /** `save`: replaces the content of an existing node and stamps it; 404 otherwise. */
    method Save(id: Uuid, content: string) returns (status: Status)
      requires Valid()
      modifies this
      ensures Valid()
      ensures id in old(nodes) ==>
        && status == Ok
        && nodes == old(nodes)[id := old(nodes)[id].(content := Some(content), modified := JustNow)]
      ensures id !in old(nodes) ==> status == NotFound && nodes == old(nodes)
    {
      if id in nodes {
        nodes := nodes[id := nodes[id].(content := Some(content), modified := JustNow)];
        status := Ok;
      } else {
        status := NotFound;
      }
    }

    /** `remove`: deletes that key only; 204 exactly when it was present. */
    method Remove(id: Uuid) returns (status: Status)
      requires Valid()
      modifies this
      ensures Valid()
      ensures nodes == old(nodes) - {id}
      ensures status == NoContent <==> id in old(nodes)
      ensures status != NoContent ==> status == NotFound
    {
      var present := id in nodes;
      nodes := nodes - {id};
      if present {
        status := NoContent;
      } else {
        status := NotFound;
      }
    }
  }
}
