/** The Markdown plugin of website/src/plugins/remark-base-path.mjs: every
    internal absolute link or image URL of a Markdown tree is prefixed with
    the site's base path. */
module RemarkBasePath {
  import opened Basics
  import UrlUtils

  /** A node of the Markdown syntax tree: its type ("link", "image",
      "paragraph", ...), its `url` (empty when the node has none) and its
      children. */
  datatype MdNode = MdNode(kind: string, url: string, children: seq<MdNode>)

  /** The plugin's base normalisation: one trailing "/" is sliced off. */
  function NormalizedBase(base: string): (r: string)
    ensures EndsWith(base, "/") ==> r + "/" == base
    ensures !EndsWith(base, "/") ==> r == base
  {
    if EndsWith(base, "/") then base[..|base| - 1] else base
  }

  /** The plugin and normalizeBase of url.ts agree on every base, the root
      base "/" included. */
  lemma {:induction false} SameNormalisationAsUrlUtils(base: string)
    ensures NormalizedBase(base) == UrlUtils.NormalizeBase(base)
  {
  }

  /** The visitor's test: a non-empty internal absolute URL that is neither
      protocol-relative nor already under the base. */
  predicate ShouldPrefix(url: string, normalizedBase: string): (r: bool)
    ensures r ==> |url| > 0 && url[0] == '/' && (|url| == 1 || url[1] != '/')
    ensures r ==> StartsWith(normalizedBase + url, normalizedBase + "/")
    ensures r ==> normalizedBase != ""
  {
    && url != ""
    && StartsWith(url, "/")
    && !StartsWith(url, "//")
    && !StartsWith(url, normalizedBase + "/")
  }

  /** The URL the visitor leaves in `node.url`. */
  function RewriteUrl(url: string, normalizedBase: string): (r: string)
    ensures r == url || r == normalizedBase + url
    ensures StartsWith(r, "/") ==> StartsWith(url, "/")
  {
    if ShouldPrefix(url, normalizedBase) then normalizedBase + url else url
  }

  /** A URL changes exactly when the visitor's test holds. */
  lemma RewriteChangesIff(url: string, normalizedBase: string)
    ensures RewriteUrl(url, normalizedBase) != url <==> ShouldPrefix(url, normalizedBase)
  {
  }

  /** A rewritten URL starts with the base and a "/", so the test rejects it
      the second time. */
  lemma RewriteUrlIdempotent(url: string, normalizedBase: string)
    ensures RewriteUrl(RewriteUrl(url, normalizedBase), normalizedBase) == RewriteUrl(url, normalizedBase)
  {
  }

  /** External, anchor, relative and protocol-relative URLs are left alone. */
  lemma NonInternalUnchanged(url: string, normalizedBase: string)
    requires !StartsWith(url, "/") || StartsWith(url, "//")
    ensures RewriteUrl(url, normalizedBase) == url
  {
  }

  /** Only nodes of type link or image are visited. */
  predicate Visited(kind: string) {
    kind == "link" || kind == "image"
  }

  /** The transformer: every visited node's URL is rewritten, all other
      fields and all other nodes stay as they were. */
  function Transform(node: MdNode, normalizedBase: string): (r: MdNode)
    ensures r.kind == node.kind && |r.children| == |node.children|
    ensures !Visited(node.kind) ==> r.url == node.url
    ensures Visited(node.kind) && ShouldPrefix(node.url, normalizedBase) ==> r.url == normalizedBase + node.url
    ensures Visited(node.kind) && !ShouldPrefix(node.url, normalizedBase) ==> r.url == node.url
    decreases node
  {
    MdNode(node.kind,
           if Visited(node.kind) then RewriteUrl(node.url, normalizedBase) else node.url,
           TransformAll(node.children, normalizedBase))
  }

  function TransformAll(nodes: seq<MdNode>, normalizedBase: string): (r: seq<MdNode>)
    ensures |r| == |nodes|
    decreases nodes
  {
    if nodes == [] then [] else [Transform(nodes[0], normalizedBase)] + TransformAll(nodes[1..], normalizedBase)
  }

  /** remarkBasePath(base) applied to a tree. */
  function RemarkBasePath(base: string, tree: MdNode): (r: MdNode)
    ensures r.kind == tree.kind && |r.children| == |tree.children|
    ensures !Visited(tree.kind) || !StartsWith(tree.url, "/") || StartsWith(tree.url, "//") ==> r.url == tree.url
    ensures Visited(tree.kind) && StartsWith(tree.url, "/") && !StartsWith(tree.url, "//") ==>
      StartsWith(r.url, NormalizedBase(base) + "/")
  {
    Transform(tree, NormalizedBase(base))
  }

  /** The child list of a transformed node is the children, each transformed. */
  lemma {:induction false} TransformAllAt(nodes: seq<MdNode>, normalizedBase: string, i: nat)
    requires i < |nodes|
    ensures TransformAll(nodes, normalizedBase)[i] == Transform(nodes[i], normalizedBase)
    decreases nodes
  {
    if i > 0 {
      TransformAllAt(nodes[1..], normalizedBase, i - 1);
    }
  }

  /** The transform keeps each node's type and number of children, and
      changes the URL only of link and image nodes. */
  lemma {:induction false} TransformKeepsShape(node: MdNode, normalizedBase: string)
    ensures Transform(node, normalizedBase).kind == node.kind
    ensures |Transform(node, normalizedBase).children| == |node.children|
    ensures !Visited(node.kind) ==> Transform(node, normalizedBase).url == node.url
    ensures forall i :: 0 <= i < |node.children| ==>
      Transform(node, normalizedBase).children[i] == Transform(node.children[i], normalizedBase)
  {
    forall i | 0 <= i < |node.children|
      ensures Transform(node, normalizedBase).children[i] == Transform(node.children[i], normalizedBase)
    {
      TransformAllAt(node.children, normalizedBase, i);
    }
  }

  /** Applying the transform twice changes nothing more than applying it once. */
  lemma {:induction false} TransformIdempotent(node: MdNode, normalizedBase: string)
    ensures Transform(Transform(node, normalizedBase), normalizedBase) == Transform(node, normalizedBase)
    decreases node
  {
    RewriteUrlIdempotent(node.url, normalizedBase);
    TransformAllIdempotent(node.children, normalizedBase);
  }

  lemma {:induction false} TransformAllIdempotent(nodes: seq<MdNode>, normalizedBase: string)
    ensures TransformAll(TransformAll(nodes, normalizedBase), normalizedBase) == TransformAll(nodes, normalizedBase)
    decreases nodes
  {
    if nodes != [] {
      TransformIdempotent(nodes[0], normalizedBase);
      TransformAllIdempotent(nodes[1..], normalizedBase);
      var once := TransformAll(nodes, normalizedBase);
      assert once[0] == Transform(nodes[0], normalizedBase);
      assert once[1..] == TransformAll(nodes[1..], normalizedBase);
    }
  }

  /** With the empty normalised base every URL already starts with "" + "/"
      when it starts with "/", so nothing is rewritten. */
  lemma {:induction false} EmptyBaseIsIdentity(node: MdNode)
    ensures Transform(node, "") == node
    decreases node
  {
    EmptyBaseIsIdentityAll(node.children);
  }

  lemma {:induction false} EmptyBaseIsIdentityAll(nodes: seq<MdNode>)
    ensures TransformAll(nodes, "") == nodes
    decreases nodes
  {
    if nodes != [] {
      EmptyBaseIsIdentity(nodes[0]);
      EmptyBaseIsIdentityAll(nodes[1..]);
    }
  }

  /** Running the plugin over its own output changes nothing. */
  lemma PluginIdempotent(base: string, tree: MdNode)
    ensures RemarkBasePath(base, RemarkBasePath(base, tree)) == RemarkBasePath(base, tree)
  {
    TransformIdempotent(tree, NormalizedBase(base));
  }

  /** Bases "/" and "" leave every tree unchanged. */
  lemma RootBaseIsIdentity(base: string, tree: MdNode)
    requires base == "/" || base == ""
    ensures RemarkBasePath(base, tree) == tree
  {
    assert NormalizedBase(base) == "";
    EmptyBaseIsIdentity(tree);
  }

  /** An example: under base "/CSS-Tags/" the link "/guides/x" becomes
      "/CSS-Tags/guides/x" and the anchor "#top" is kept. */
  lemma PrefixExample()
    ensures RemarkBasePath("/CSS-Tags/", MdNode("link", "/guides/x", [])).url == "/CSS-Tags/guides/x"
    ensures RemarkBasePath("/CSS-Tags/", MdNode("link", "#top", [])).url == "#top"
  {
    assert NormalizedBase("/CSS-Tags/") == "/CSS-Tags";
    assert "/guides/x"[1] != "//"[1];
    assert "/guides/x"[1] != "/CSS-Tags/"[1];
    assert "#top"[0] != '/';
  }
}
