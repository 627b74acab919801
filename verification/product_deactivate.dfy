/** `GET /product/{reference}`: finds a storefront product by reference and
    deactivates it by writing back its XML document with `active` set to 0
    and without the fields the storefront refuses to be written. */
module ProductDeactivate {
  import opened Common
  import opened Text
  import opened Json
  import opened Products

  /** An element of the parsed product document: its tag (possibly
      `{namespace}name`), its text and its children in document order.
      Attributes and tails are carried through untouched by the rewrite and
      are not modelled. */
  datatype Node = Node(tag: string, text: Option<string>, children: seq<Node>)

  /** `tag.split("}")[-1]`: what follows the last `}` of a tag. */
  function LocalName(tag: string): (r: string)
    decreases |tag|
  {
    if tag == [] || tag[|tag| - 1] == '}' then []
    else LocalName(tag[..|tag| - 1]) + [tag[|tag| - 1]]
  }

  /** The local name is the part of the tag after its last `}`: a suffix
      without `}`, preceded by `}` unless it is the whole tag. */
  lemma {:induction false} LocalNameIsSuffix(tag: string)
    ensures var r := LocalName(tag);
      && '}' !in r
      && |r| <= |tag| && r == tag[|tag| - |r|..]
      && (|r| < |tag| ==> tag[|tag| - |r| - 1] == '}')
    decreases |tag|
  {
    if tag != [] && tag[|tag| - 1] != '}' {
      var init := tag[..|tag| - 1];
      LocalNameIsSuffix(init);
      var r0 := LocalName(init);
      assert init[|init| - |r0|..] + [tag[|tag| - 1]] == tag[|tag| - |r0| - 1..];
    }
  }

  /** The fields the storefront refuses in a product `PUT`. */
  const NonWritable: set<string> :=
    {"manufacturer_name", "quantity", "position_in_category", "id_default_image", "id_default_combination"}

  predicate Writable(n: Node) {
    LocalName(n.tag) !in NonWritable
  }

  /** A tag without a namespace is its own local name. */
  lemma {:induction false} LocalNameOfPlainTag(tag: string)
    requires '}' !in tag
    ensures LocalName(tag) == tag
    decreases |tag|
  {
    if tag != [] {
      var init := tag[..|tag| - 1];
      assert '}' !in init by {
        assert forall c :: c in init ==> c in tag;
      }
      LocalNameOfPlainTag(init);
      assert init + [tag[|tag| - 1]] == tag;
    }
  }

  /** The rewrite never removes the `active` element it has just set. */
  lemma ActiveIsWritable(n: Node)
    requires n.tag == "active"
    ensures Writable(n)
  {
    LocalNameOfPlainTag("active");
  }

  /** The children that survive the removal loop: the writable ones, in order. */
  function Keep(ns: seq<Node>): (r: seq<Node>)
    ensures |r| <= |ns|
    decreases |ns|
  {
    if ns == [] then []
    else Keep(ns[..|ns| - 1]) + if Writable(ns[|ns| - 1]) then [ns[|ns| - 1]] else []
  }

  /** Keeping one more child adds it when it is writable. */
  lemma KeepStep(ns: seq<Node>, i: nat)
    requires i < |ns|
    ensures Keep(ns[..i + 1]) == Keep(ns[..i]) + if Writable(ns[i]) then [ns[i]] else []
  {
    assert ns[..i + 1][..i] == ns[..i];
  }

  /** Filtering two runs of children one after the other filters their
      concatenation: the kept children stay in document order. */
  lemma {:induction false} KeepAppend(a: seq<Node>, b: seq<Node>)
    ensures Keep(a + b) == Keep(a) + Keep(b)
    decreases |b|
  {
    if b == [] {
      assert a + b == a;
    } else {
      var b0 := b[..|b| - 1];
      var last := b[|b| - 1];
      assert (a + b)[..|a + b| - 1] == a + b0;
      assert (a + b)[|a + b| - 1] == last;
      KeepAppend(a, b0);
      var tail := if Writable(last) then [last] else [];
      assert Keep(a + b) == Keep(a + b0) + tail;
      assert Keep(b) == Keep(b0) + tail;
      AppendAssoc(Keep(a), Keep(b0), tail);
    }
  }

  /** Only writable children of the original list survive. */
  lemma {:induction false} KeepSound(ns: seq<Node>)
    ensures forall n :: n in Keep(ns) ==> n in ns && Writable(n)
    decreases |ns|
  {
    if ns != [] {
      var init := ns[..|ns| - 1];
      KeepSound(init);
      assert forall n :: n in init ==> n in ns;
    }
  }

  /** Every writable child survives. */
  lemma {:induction false} KeepComplete(ns: seq<Node>)
    ensures forall n :: n in ns && Writable(n) ==> n in Keep(ns)
    decreases |ns|
  {
    if ns != [] {
      var init := ns[..|ns| - 1];
      KeepComplete(init);
      assert forall n :: n in ns ==> n in init || n == ns[|ns| - 1] by {
        assert ns == init + [ns[|ns| - 1]];
      }
    }
  }

  /** Children that are all writable are kept whole. */
  lemma {:induction false} KeepAllWritable(ns: seq<Node>)
    requires forall i :: 0 <= i < |ns| ==> Writable(ns[i])
    ensures Keep(ns) == ns
    decreases |ns|
  {
    if ns != [] {
      var init := ns[..|ns| - 1];
      KeepAllWritable(init);
    }
  }

  /** The two searches `root.find(".//product")` and
      `root.find(".//product/active")`; the second finds the product holding
      the `active` child. */
  datatype Query = AnyProduct | ProductWithActive

  /** The index of the first child tagged `active`. */
  function ActiveIndex(cs: seq<Node>): (r: Option<nat>)
    ensures r.Some? ==> r.value < |cs| && cs[r.value].tag == "active"
    ensures r.Some? ==> forall j :: 0 <= j < r.value ==> cs[j].tag != "active"
    ensures r.None? ==> forall j :: 0 <= j < |cs| ==> cs[j].tag != "active"
    decreases |cs|
  {
    if cs == [] then None
    else if cs[0].tag == "active" then Some(0)
    else match ActiveIndex(cs[1..])
      case None => None
      case Some(k) => Some(k + 1)
  }

  predicate Matches(q: Query, n: Node) {
    n.tag == "product" && (q == ProductWithActive ==> ActiveIndex(n.children).Some?)
  }

  /** The element at a path of child indices below a list of siblings. */
  function NodeAt(ns: seq<Node>, p: seq<nat>): Option<Node>
    decreases p
  {
    if p == [] || p[0] >= |ns| then None
    else if |p| == 1 then Some(ns[p[0]])
    else NodeAt(ns[p[0]].children, p[1..])
  }

  /** The siblings `ns` with the element at path `p` replaced by `m`. */
  function Replace(ns: seq<Node>, p: seq<nat>, m: Node): (r: seq<Node>)
    ensures |r| == |ns|
    decreases p
  {
    if p == [] || p[0] >= |ns| then ns
    else if |p| == 1 then ns[p[0] := m]
    else ns[p[0] := ns[p[0]].(children := Replace(ns[p[0]].children, p[1..], m))]
  }

  /** The first match of `q` at or below `n`, in document order, as a path
      relative to `n` (the empty path is `n` itself). */
  function FindIn(n: Node, q: Query): (r: Option<seq<nat>>)
    ensures r.Some? && r.value == [] ==> Matches(q, n)
    ensures r.Some? && r.value != [] ==> NodeAt(n.children, r.value).Some? && Matches(q, NodeAt(n.children, r.value).value)
    decreases n, 1
  {
    if Matches(q, n) then Some([]) else FindAmong(n.children, q, 0)
  }

  /** The first match of `q` at or below `ns[i..]`, in document order. */
  function FindAmong(ns: seq<Node>, q: Query, i: nat): (r: Option<seq<nat>>)
    ensures r.Some? ==> NodeAt(ns, r.value).Some? && Matches(q, NodeAt(ns, r.value).value)
    decreases ns, |ns| - i
  {
    if i >= |ns| then None
    else match FindIn(ns[i], q)
      case Some(p) =>
        assert p != [] ==> NodeAt(ns, [i] + p) == NodeAt(ns[i].children, p) by {
          assert ([i] + p)[1..] == p;
        }
        Some([i] + p)
      case None => FindAmong(ns, q, i + 1)
  }

  /** `root.find(...)`: the search starts below the root. */
  function Find(root: Node, q: Query): (r: Option<seq<nat>>)
    ensures r.Some? ==> NodeAt(root.children, r.value).Some? && Matches(q, NodeAt(root.children, r.value).value)
  {
    FindAmong(root.children, q, 0)
  }

  /** Path `p` comes before path `r` in document order (the order of the
      opening tags): `p` is a proper prefix of `r`, or at the first index
      where they differ `p` names an earlier sibling. */
  predicate Before(p: seq<nat>, r: seq<nat>)
    decreases |p|
  {
    r != [] && (p == [] || p[0] < r[0] || (p[0] == r[0] && Before(p[1..], r[1..])))
  }

  /** A search below `n` that finds nothing: neither `n` nor anything below
      it matches. */
  lemma {:induction false} FindInNone(n: Node, q: Query)
    requires FindIn(n, q).None?
    ensures !Matches(q, n)
    ensures forall p :: NodeAt(n.children, p).Some? ==> !Matches(q, NodeAt(n.children, p).value)
    decreases n, 1
  {
    FindAmongNone(n.children, q, 0);
  }

  /** A search from sibling `i` on that finds nothing: nothing at or below
      `ns[i..]` matches. */
  lemma {:induction false} FindAmongNone(ns: seq<Node>, q: Query, i: nat)
    requires FindAmong(ns, q, i).None?
    ensures forall p :: p != [] && p[0] >= i && NodeAt(ns, p).Some? ==> !Matches(q, NodeAt(ns, p).value)
    decreases ns, |ns| - i
  {
    if i < |ns| {
      FindInNone(ns[i], q);
      FindAmongNone(ns, q, i + 1);
      forall p | p != [] && p[0] == i && NodeAt(ns, p).Some?
        ensures !Matches(q, NodeAt(ns, p).value)
      {
        if |p| > 1 {
          assert NodeAt(ns, p) == NodeAt(ns[i].children, p[1..]);
        }
      }
    }
  }

  /** The search below `n` returns the first match in document order: when
      it is not `n` itself, `n` does not match, and nothing before it does. */
  lemma {:induction false} FindInFirst(n: Node, q: Query)
    requires FindIn(n, q).Some?
    ensures FindIn(n, q).value != [] ==> !Matches(q, n)
    ensures forall p :: Before(p, FindIn(n, q).value) && NodeAt(n.children, p).Some? ==>
              !Matches(q, NodeAt(n.children, p).value)
    decreases n, 1
  {
    if !Matches(q, n) {
      FindAmongFirst(n.children, q, 0);
    }
  }

  /** The search from sibling `i` on returns the first match at or below
      `ns[i..]` in document order. */
  lemma {:induction false} FindAmongFirst(ns: seq<Node>, q: Query, i: nat)
    requires FindAmong(ns, q, i).Some?
    ensures FindAmong(ns, q, i).value != [] && FindAmong(ns, q, i).value[0] >= i
    ensures forall p :: Before(p, FindAmong(ns, q, i).value) && p != [] && p[0] >= i && NodeAt(ns, p).Some? ==>
              !Matches(q, NodeAt(ns, p).value)
    decreases ns, |ns| - i
  {
    var r := FindAmong(ns, q, i).value;
    match FindIn(ns[i], q)
    case Some(p0) =>
      assert r == [i] + p0;
      FindInFirst(ns[i], q);
      forall p | Before(p, r) && p != [] && p[0] >= i && NodeAt(ns, p).Some?
        ensures !Matches(q, NodeAt(ns, p).value)
      {
        assert p[0] == i && Before(p[1..], p0) && r[1..] == p0;
        if |p| > 1 {
          assert NodeAt(ns, p) == NodeAt(ns[i].children, p[1..]);
        }
      }
    case None =>
      FindInNone(ns[i], q);
      FindAmongFirst(ns, q, i + 1);
      forall p | p != [] && p[0] == i && NodeAt(ns, p).Some?
        ensures !Matches(q, NodeAt(ns, p).value)
      {
        if |p| > 1 {
          assert NodeAt(ns, p) == NodeAt(ns[i].children, p[1..]);
        }
      }
  }

  /** `root.find(...)` answers the first element below the root, in document
      order, that matches, and `None` exactly when no element below the root
      matches. */
  lemma FindFirst(root: Node, q: Query)
    ensures Find(root, q).None? ==>
              forall p :: NodeAt(root.children, p).Some? ==> !Matches(q, NodeAt(root.children, p).value)
    ensures Find(root, q).Some? ==>
              forall p :: Before(p, Find(root, q).value) && NodeAt(root.children, p).Some? ==>
                !Matches(q, NodeAt(root.children, p).value)
  {
    if Find(root, q).None? {
      FindAmongNone(root.children, q, 0);
    } else {
      FindAmongFirst(root.children, q, 0);
    }
  }

  /** Replacing an element puts it where the path leads. */
  lemma {:induction false} NodeAtReplace(ns: seq<Node>, p: seq<nat>, m: Node)
    requires NodeAt(ns, p).Some?
    ensures NodeAt(Replace(ns, p, m), p) == Some(m)
    decreases p
  {
    if |p| > 1 {
      NodeAtReplace(ns[p[0]].children, p[1..], m);
    }
  }

  /** Replacing a child of the element at `p` changes that element by
      exactly that child. */
  lemma {:induction false} NodeAtReplaceChild(ns: seq<Node>, p: seq<nat>, k: nat, m: Node)
    requires NodeAt(ns, p).Some? && k < |NodeAt(ns, p).value.children|
    ensures NodeAt(ns, p + [k]) == Some(NodeAt(ns, p).value.children[k])
    ensures var n := NodeAt(ns, p).value;
      NodeAt(Replace(ns, p + [k], m), p) == Some(n.(children := n.children[k := m]))
    decreases p
  {
    assert (p + [k])[0] == p[0];
    if |p| == 1 {
      assert (p + [k])[1..] == [k];
    } else {
      assert (p + [k])[1..] == p[1..] + [k];
      NodeAtReplaceChild(ns[p[0]].children, p[1..], k, m);
    }
  }

  /** Two elements with the same tag whose children have the same tags
      answer both queries alike. */
  predicate SameTags(a: Node, b: Node) {
    a.tag == b.tag && |a.children| == |b.children|
    && forall j :: 0 <= j < |a.children| ==> a.children[j].tag == b.children[j].tag
  }

  lemma SameTagsMatch(a: Node, b: Node, q: Query)
    requires SameTags(a, b)
    ensures Matches(q, a) == Matches(q, b)
  {
    SameActiveIndex(a.children, b.children);
  }

  lemma {:induction false} SameActiveIndex(a: seq<Node>, b: seq<Node>)
    requires |a| == |b| && forall j :: 0 <= j < |a| ==> a[j].tag == b[j].tag
    ensures ActiveIndex(a) == ActiveIndex(b)
    decreases |a|
  {
    if a != [] {
      SameActiveIndex(a[1..], b[1..]);
    }
  }

  /** Replacing an element by one with the same tag keeps the tags of the
      siblings. */
  lemma ReplaceKeepsTags(ns: seq<Node>, p: seq<nat>, m: Node)
    requires NodeAt(ns, p).Some? && m.tag == NodeAt(ns, p).value.tag
    ensures forall j :: 0 <= j < |ns| ==> Replace(ns, p, m)[j].tag == ns[j].tag
  {
  }

  /** Setting the text of one element moves no search result: the searches
      look at tags only. */
  lemma {:induction false} FindIgnoresText(ns: seq<Node>, p: seq<nat>, t: Option<string>, q: Query, i: nat)
    requires NodeAt(ns, p).Some?
    ensures FindAmong(Replace(ns, p, NodeAt(ns, p).value.(text := t)), q, i) == FindAmong(ns, q, i)
    decreases |p|, |ns| - i
  {
    var ns' := Replace(ns, p, NodeAt(ns, p).value.(text := t));
    if i < |ns| {
      FindIgnoresText(ns, p, t, q, i + 1);
      if i == p[0] {
        var n := ns[i];
        var n' := ns'[i];
        if |p| == 1 {
          assert n' == n.(text := t);
        } else {
          var m := NodeAt(n.children, p[1..]).value.(text := t);
          assert n' == n.(children := Replace(n.children, p[1..], m));
          ReplaceKeepsTags(n.children, p[1..], m);
          FindIgnoresText(n.children, p[1..], t, q, 0);
        }
        SameTagsMatch(n', n, q);
        assert FindIn(n', q) == FindIn(n, q);
      } else {
        assert ns'[i] == ns[i];
      }
    }
  }

  /** Whatever holds a product with an `active` child holds a product. */
  lemma {:induction false} FindWeaker(ns: seq<Node>, i: nat)
    requires FindAmong(ns, ProductWithActive, i).Some?
    ensures FindAmong(ns, AnyProduct, i).Some?
    decreases ns, |ns| - i
  {
    if FindIn(ns[i], ProductWithActive).None? {
      FindWeaker(ns, i + 1);
    } else if !Matches(AnyProduct, ns[i]) {
      FindWeaker(ns[i].children, 0);
    }
  }

  /** The document after `active_node.text = "0"`, the `active` element
      being child `k` of the product at `pp`. */
  function Marked(root: Node, pp: seq<nat>, k: nat): Node
    requires NodeAt(root.children, pp).Some? && k < |NodeAt(root.children, pp).value.children|
  {
    var active := NodeAt(root.children, pp).value.children[k];
    root.(children := Replace(root.children, pp + [k], active.(text := Some("0"))))
  }

  /** The document after the removal loop ran over the children of the
      first product, if there is one. */
  function Stripped(doc: Node): Node {
    match Find(doc, AnyProduct)
    case None => doc
    case Some(qp) =>
      var first := NodeAt(doc.children, qp).value;
      doc.(children := Replace(doc.children, qp, first.(children := Keep(first.children))))
  }

  /** The rewrite of `_disable_product_active_field` on a parsed document:
      none when the document has no `product/active` element; otherwise the
      document with that element's text set to "0" and the first product
      stripped of its non-writable children. */
  function Disabled(root: Node): Option<Node> {
    match Find(root, ProductWithActive)
    case None => None
    case Some(pp) =>
      var product := NodeAt(root.children, pp).value;
      Some(Stripped(Marked(root, pp, ActiveIndex(product.children).value)))
  }

  /** Marking `active` leaves both searches where they were, and changes the
      product holding it by that one child. */
  lemma MarkedFacts(root: Node, pp: seq<nat>, k: nat, q: Query)
    requires NodeAt(root.children, pp).Some? && k < |NodeAt(root.children, pp).value.children|
    ensures Find(Marked(root, pp, k), q) == Find(root, q)
    ensures var product := NodeAt(root.children, pp).value;
      NodeAt(Marked(root, pp, k).children, pp)
        == Some(product.(children := product.children[k := product.children[k].(text := Some("0"))]))
  {
    var product := NodeAt(root.children, pp).value;
    NodeAtReplaceChild(root.children, pp, k, product.children[k].(text := Some("0")));
    FindIgnoresText(root.children, pp + [k], Some("0"), q, 0);
  }

  /** After the removal loop the first product holds exactly its writable
      children, in order. */
  lemma StrippedFirst(doc: Node)
    requires Find(doc, AnyProduct).Some?
    ensures var qp := Find(doc, AnyProduct).value;
      var first := NodeAt(doc.children, qp).value;
      NodeAt(Stripped(doc).children, qp) == Some(first.(children := Keep(first.children)))
  {
    var qp := Find(doc, AnyProduct).value;
    var first := NodeAt(doc.children, qp).value;
    NodeAtReplace(doc.children, qp, first.(children := Keep(first.children)));
  }

  /** There is something to send exactly when the document has a
      `product/active` element; the first product of what is sent has only
      writable children. */
  lemma DisabledStripsFirst(root: Node)
    ensures Disabled(root).Some? <==> Find(root, ProductWithActive).Some?
    ensures Disabled(root).Some? ==>
      && Find(root, AnyProduct).Some?
      && var qp := Find(root, AnyProduct).value;
         && NodeAt(Disabled(root).value.children, qp).Some?
         && forall c :: c in NodeAt(Disabled(root).value.children, qp).value.children ==> Writable(c)
  {
    if Find(root, ProductWithActive).Some? {
      var pp := Find(root, ProductWithActive).value;
      var k := ActiveIndex(NodeAt(root.children, pp).value.children).value;
      var marked := Marked(root, pp, k);
      FindWeaker(root.children, 0);
      MarkedFacts(root, pp, k, AnyProduct);
      StrippedFirst(marked);
      var qp := Find(root, AnyProduct).value;
      KeepSound(NodeAt(marked.children, qp).value.children);
    }
  }

  /** When `active` belongs to the first product (the storefront's own
      documents hold a single product), that product is sent with `active`
      set to "0" and every other writable child, in order. */
  lemma DisabledMarksActive(root: Node)
    requires Find(root, ProductWithActive).Some? && Find(root, AnyProduct) == Find(root, ProductWithActive)
    ensures var pp := Find(root, ProductWithActive).value;
      var product := NodeAt(root.children, pp).value;
      var k := ActiveIndex(product.children).value;
      var marked := product.children[k := product.children[k].(text := Some("0"))];
      && NodeAt(Disabled(root).value.children, pp) == Some(product.(children := Keep(marked)))
      && Node("active", Some("0"), product.children[k].children) in Keep(marked)
  {
    var pp := Find(root, ProductWithActive).value;
    var product := NodeAt(root.children, pp).value;
    var k := ActiveIndex(product.children).value;
    var kids := product.children[k := product.children[k].(text := Some("0"))];
    MarkedFacts(root, pp, k, AnyProduct);
    StrippedFirst(Marked(root, pp, k));
    assert kids[k] == Node("active", Some("0"), product.children[k].children);
    ActiveIsWritable(kids[k]);
    KeepComplete(kids);
  }

  /** The removal loop `for child in list(product_node)`: walks a snapshot
      of the children and removes each non-writable one from the live list,
      where it sits after the removals made so far. */
  method DropNonWritable(children: seq<Node>) returns (current: seq<Node>)
    ensures current == Keep(children)
  {
    current := children;
    var i := 0;
    while i < |children|
      invariant 0 <= i <= |children|
      invariant current == Keep(children[..i]) + children[i..]
      decreases |children| - i
    {
      ghost var kept := Keep(children[..i]);
      var j := |Keep(children[..i])|;
      KeepStep(children, i);
      assert children[i..] == [children[i]] + children[i + 1..];
      var tagName := LocalName(children[i].tag);
      if tagName in NonWritable {
        RemoveAt(kept, children[i..]);
        current := current[..j] + current[j + 1..];
      } else {
        AppendAssoc(kept, [children[i]], children[i + 1..]);
      }
      i := i + 1;
    }
    assert children[..i] == children;
  }

  /** Removing the element that follows `k` leaves `k` and the rest. */
  lemma RemoveAt(k: seq<Node>, rest: seq<Node>)
    requires rest != []
    ensures (k + rest)[..|k|] + (k + rest)[|k| + 1..] == k + rest[1..]
  {
    assert (k + rest)[..|k|] == k;
    assert (k + rest)[|k| + 1..] == rest[1..];
  }

  /** The tree rewrite of `_disable_product_active_field`, in the order the
      source performs it: find `product/active`, set it to "0", find the
      first product and run the removal loop over its children. */
  method DisableTree(root: Node) returns (r: Option<Node>)
    ensures r == Disabled(root)
  {
    var found := Find(root, ProductWithActive);
    if found.None? {
      return None;
    }
    var pp := found.value;
    var product := NodeAt(root.children, pp).value;
    var marked := Marked(root, pp, ActiveIndex(product.children).value);
    var firstAt := Find(marked, AnyProduct);
    if firstAt.None? {
      return Some(marked);
    }
    var first := NodeAt(marked.children, firstAt.value).value;
    var kept := DropNonWritable(first.children);
    r := Some(marked.(children := Replace(marked.children, firstAt.value, first.(children := kept))));
  }

  /** The storefront's answers to the three requests the endpoint can make. */
  datatype Lookup = Lookup(status: int, body: Option<Json>)   // body absent: not JSON
  datatype Fetched = Fetched(status: int, text: string, tree: Option<Node>)  // tree absent: `ParseError`
  datatype Written = Written(status: int, text: string)

  /** A request sent to the storefront. */
  datatype Request =
    | FindByReference(reference: string)
    | FetchXml(productId: string)
    | PutXml(productId: string, doc: Node)

  /** `_disable_product_active_field`: the response it returns (a status
      and a text) and the requests it makes.  A failed fetch, a body that
      does not parse and a document without `product/active` pass the fetch
      response back without a `PUT`. */
  function Disable(productId: string, fetched: Fetched, written: Written): (int, string, seq<Request>) {
    if fetched.status != 200 || fetched.tree.None? then (fetched.status, fetched.text, [FetchXml(productId)])
    else match Disabled(fetched.tree.value)
      case None => (fetched.status, fetched.text, [FetchXml(productId)])
      case Some(doc) => (written.status, written.text, [FetchXml(productId), PutXml(productId, doc)])
  }

  method DisableProductActiveField(productId: string, fetched: Fetched, written: Written)
    returns (status: int, text: string, requests: seq<Request>)
    ensures (status, text, requests) == Disable(productId, fetched, written)
  {
    requests := [FetchXml(productId)];
    if fetched.status != 200 {
      return fetched.status, fetched.text, requests;
    }
    if fetched.tree.None? {
      return fetched.status, fetched.text, requests;
    }
    var doc := DisableTree(fetched.tree.value);
    if doc.None? {
      return fetched.status, fetched.text, requests;
    }
    requests := [FetchXml(productId), PutXml(productId, doc.value)];
    status, text := written.status, written.text;
  }

  /** `products[0]` on a non-empty collection: an item of a list; a dict
      has no key 0; a string gives its first character; a number or a
      boolean cannot be indexed. */
  function First(products: Json): (r: Result<Json>)
    ensures products.JList? && products.items != [] ==> r == Ok(products.items[0])
    ensures !products.JList? && !products.JStr? ==> r.Crash?
  {
    match products
    case JList(items) => if items == [] then Crash(IndexError) else Ok(items[0])
    case JObj(_) => Crash(KeyError)
    case JStr(s) => if s == "" then Crash(IndexError) else Ok(JStr([s[0]]))
    case _ => Crash(TypeError)
  }

  /** `str(product.get("id", "")).strip()`: a missing id is empty, a null
      one reads "None". */
  function ProductIdOf(fields: map<string, Json>): (r: string)
    ensures Clean(r)
    ensures "id" !in fields ==> r == ""
    ensures "id" in fields && fields["id"] == JNull ==> r == "None"
  {
    Strip(PyStr(Get(fields, "id", JStr(""))))
  }

  const NotFound: string := "Producto no encontrado"
  const NoIdMessage: string := "El producto no tiene id v\U{00E1}lido"
  const NotDeactivated: string := "No se pudo desactivar el producto en PrestaShop"

  /** `deactivate_product(reference)`: the answer and the requests made. */
  function Deactivation(cfg: Config, reference: string, lookup: Lookup, fetched: Fetched, written: Written)
    : (Response<Row>, seq<Request>)
  {
    if !Configured(cfg) then (Error("500", NotConfiguredMessage, None), [])
    else
      var asked := [FindByReference(reference)];
      if lookup.status != 200 then (Error(IntToString(lookup.status), QueryFailedMessage, None), asked)
      else if lookup.body.None? then (Crashed(ValueError), asked)
      else match ListFirstProducts(lookup.body.value)
        case Crash(e) => (Crashed(e), asked)
        case Ok(products) =>
          if !Truthy(products) then (Error("404", NotFound, None), asked)
          else match First(products)
            case Crash(e) => (Crashed(e), asked)
            case Ok(product) =>
              if !product.JObj? then (Crashed(AttributeError), asked)
              else
                var f := product.fields;
                var productId := ProductIdOf(f);
                if productId == "" then (Error("500", NoIdMessage, None), asked)
                else
                  var (status, text, sent) := Disable(productId, fetched, written);
                  if !Accepted(status) then (Error(IntToString(status), NotDeactivated, Some(Take(text, 300))), asked + sent)
                  else match DisplayName(f)
                    case Crash(e) => (Crashed(e), asked + sent)
                    case Ok(name) =>
                      (Success(Row(Get(f, "id", JNull), name, Get(f, "reference", JNull), Get(f, "price", JNull), Get(f, "quantity", JNull), No)),
                       asked + sent)
  }

  /** The early answers of `deactivate_product`: without configuration
      nothing is asked; a failed lookup answers its own status; an empty
      collection answers 404; none of them reaches the product document. */
  lemma DeactivationEarlyErrors(cfg: Config, reference: string, lookup: Lookup, fetched: Fetched, written: Written)
    ensures !Configured(cfg) ==> Deactivation(cfg, reference, lookup, fetched, written) == (Error("500", NotConfiguredMessage, None), [])
    ensures Configured(cfg) && lookup.status != 200 ==>
              Deactivation(cfg, reference, lookup, fetched, written)
                == (Error(IntToString(lookup.status), QueryFailedMessage, None), [FindByReference(reference)])
    ensures Configured(cfg) && lookup.status == 200 && lookup.body.Some?
            && ListFirstProducts(lookup.body.value).Ok? && !Truthy(ListFirstProducts(lookup.body.value).value) ==>
              Deactivation(cfg, reference, lookup, fetched, written) == (Error("404", NotFound, None), [FindByReference(reference)])
  {
  }

  /** The lookup found a product (a dict at the head of a non-empty list). */
  predicate FoundProduct(cfg: Config, lookup: Lookup) {
    && Configured(cfg) && lookup.status == 200 && lookup.body.Some?
    && ListFirstProducts(lookup.body.value).Ok?
    && var products := ListFirstProducts(lookup.body.value).value;
       products.JList? && products.items != [] && products.items[0].JObj?
  }

  function FoundFields(cfg: Config, lookup: Lookup): map<string, Json>
    requires FoundProduct(cfg, lookup)
  {
    ListFirstProducts(lookup.body.value).value.items[0].fields
  }

  /** A product without an id answers 500 and is not touched. */
  lemma DeactivationNeedsId(cfg: Config, reference: string, lookup: Lookup, fetched: Fetched, written: Written)
    requires FoundProduct(cfg, lookup) && ProductIdOf(FoundFields(cfg, lookup)) == ""
    ensures Deactivation(cfg, reference, lookup, fetched, written) == (Error("500", NoIdMessage, None), [FindByReference(reference)])
  {
  }

  /** Whether the document fetched is written back: the fetch answered 200
      with a document that parses and holds `product/active`. */
  predicate Writes(fetched: Fetched) {
    fetched.status == 200 && fetched.tree.Some? && Find(fetched.tree.value, ProductWithActive).Some?
  }

  /** Once the product has an id its document is fetched, and it is written
      back, as the rewrite makes it, exactly when `Writes` holds. */
  lemma DeactivationRequests(cfg: Config, reference: string, lookup: Lookup, fetched: Fetched, written: Written)
    requires FoundProduct(cfg, lookup) && ProductIdOf(FoundFields(cfg, lookup)) != ""
    ensures var productId := ProductIdOf(FoundFields(cfg, lookup));
      var requests := Deactivation(cfg, reference, lookup, fetched, written).1;
      && (Writes(fetched) ==>
            requests == [FindByReference(reference), FetchXml(productId), PutXml(productId, Disabled(fetched.tree.value).value)])
      && (!Writes(fetched) ==> requests == [FindByReference(reference), FetchXml(productId)])
  {
    if fetched.status == 200 && fetched.tree.Some? {
      DisabledStripsFirst(fetched.tree.value);
    }
  }

  /** The answer once the product has an id: a status other than 200 or 201
      answers an error with the first 300 characters of the response;
      otherwise the product is shown with `activo` "No".  The status tested
      is the fetch's own when nothing was written, so a 200 fetch of a
      document without `product/active` is answered as a success although
      nothing was written. */
  lemma DeactivationAnswer(cfg: Config, reference: string, lookup: Lookup, fetched: Fetched, written: Written)
    requires FoundProduct(cfg, lookup) && ProductIdOf(FoundFields(cfg, lookup)) != ""
    ensures var f := FoundFields(cfg, lookup);
      var answer := Deactivation(cfg, reference, lookup, fetched, written).0;
      var status := if Writes(fetched) then written.status else fetched.status;
      var text := if Writes(fetched) then written.text else fetched.text;
      && (!Accepted(status) ==> answer == Error(IntToString(status), NotDeactivated, Some(Take(text, 300))))
      && (Accepted(status) && DisplayName(f).Ok? ==>
            answer == Success(Row(Get(f, "id", JNull), DisplayName(f).value, Get(f, "reference", JNull),
                                  Get(f, "price", JNull), Get(f, "quantity", JNull), No)))
  {
    DisableAnswers(ProductIdOf(FoundFields(cfg, lookup)), fetched, written);
  }

  /** The status and text the rewrite ends with: the PUT's when the document
      is written back, the fetch's otherwise. */
  lemma DisableAnswers(productId: string, fetched: Fetched, written: Written)
    ensures Disable(productId, fetched, written).0 == if Writes(fetched) then written.status else fetched.status
    ensures Disable(productId, fetched, written).1 == if Writes(fetched) then written.text else fetched.text
  {
    if fetched.status == 200 && fetched.tree.Some? {
      DisabledStripsFirst(fetched.tree.value);
    }
  }

  /** `deactivate_product(reference)`. */
  method DeactivateProduct(cfg: Config, reference: string, lookup: Lookup, fetched: Fetched, written: Written)
    returns (r: Response<Row>, requests: seq<Request>)
    ensures (r, requests) == Deactivation(cfg, reference, lookup, fetched, written)
  {
    if !Configured(cfg) {
      return Error("500", NotConfiguredMessage, None), [];
    }
    requests := [FindByReference(reference)];
    if lookup.status != 200 {
      return Error(IntToString(lookup.status), QueryFailedMessage, None), requests;
    }
    if lookup.body.None? {
      return Crashed(ValueError), requests;
    }
    var products := ListFirstProducts(lookup.body.value);
    if products.Crash? {
      return Crashed(products.fault), requests;
    }
    if !Truthy(products.value) {
      return Error("404", NotFound, None), requests;
    }
    var product := First(products.value);
    if product.Crash? {
      return Crashed(product.fault), requests;
    }
    if !product.value.JObj? {
      return Crashed(AttributeError), requests;
    }
    var f := product.value.fields;
    var productId := ProductIdOf(f);
    if productId == "" {
      return Error("500", NoIdMessage, None), requests;
    }
    var status, text, sent := DisableProductActiveField(productId, fetched, written);
    requests := requests + sent;
    if !Accepted(status) {
      return Error(IntToString(status), NotDeactivated, Some(Take(text, 300))), requests;
    }
    var name := DisplayName(f);
    if name.Crash? {
      return Crashed(name.fault), requests;
    }
    r := Success(Row(Get(f, "id", JNull), name.value, Get(f, "reference", JNull), Get(f, "price", JNull), Get(f, "quantity", JNull), No));
  }
}
