/** The storefront's XML bodies as a list of tokens, and the regular
    expression field reader `_tag` over them.

    `_tag(xml, name)` searches `<name[^>]*>\s*(?:<!\[CDATA\[)?(.*?)(?:\]\]>)?\s*</name>`
    with dot-all and strips the group.  On tokens: the opening is the first
    `Open` whose tag name STARTS WITH `name` (the `[^>]*` also lets
    `<id_product>` answer a search for `id`), the content runs to the first
    `Close(name)` after it (the lazy group), and the captured text is the
    rendering of the tokens in between with leading whitespace, an opening
    CDATA marker, trailing whitespace and a closing CDATA marker removed. */
module XmlTokens {
  import opened Common
  import opened Text

  datatype Token =
    | Open(name: string, attrs: string)   // `<name attrs>`, attrs empty or starting with a space
    | Close(name: string)                 // `</name>`
    | Chars(text: string)                 // character data without markup
    | CData(text: string)                 // `<![CDATA[text]]>`

  type Doc = seq<Token>

  const CDataOpen: string := "<![CDATA["
  const CDataClose: string := "]]>"

  function Render(t: Token): string {
    match t
    case Open(n, a) => "<" + n + a + ">"
    case Close(n) => "</" + n + ">"
    case Chars(x) => x
    case CData(x) => CDataOpen + x + CDataClose
  }

  /** The text of a token list. */
  function RenderAll(d: Doc): string
    decreases |d|
  {
    if d == [] then "" else RenderAll(d[..|d| - 1]) + Render(d[|d| - 1])
  }

  /** The token is an opening tag the pattern `<name[^>]*>` matches. */
  predicate OpensAs(t: Token, name: string) {
    t.Open? && name <= t.name
  }

  /** An occurrence of the element: an opening the pattern matches at `i`,
      followed later by `</name>` at `j`. */
  predicate Element(d: Doc, name: string, i: int, j: int) {
    0 <= i < j < |d| && OpensAs(d[i], name) && d[j] == Close(name)
  }

  function FirstOpen(d: Doc, name: string, from: nat): (r: Option<nat>)
    requires from <= |d|
    ensures r.Some? ==> from <= r.value < |d| && OpensAs(d[r.value], name)
    ensures r.Some? ==> forall k :: from <= k < r.value ==> !OpensAs(d[k], name)
    ensures r.None? ==> forall k :: from <= k < |d| ==> !OpensAs(d[k], name)
    decreases |d| - from
  {
    if from == |d| then None
    else if OpensAs(d[from], name) then Some(from)
    else FirstOpen(d, name, from + 1)
  }

  function FirstClose(d: Doc, name: string, from: nat): (r: Option<nat>)
    requires from <= |d|
    ensures r.Some? ==> from <= r.value < |d| && d[r.value] == Close(name)
    ensures r.Some? ==> forall k :: from <= k < r.value ==> d[k] != Close(name)
    ensures r.None? ==> forall k :: from <= k < |d| ==> d[k] != Close(name)
    decreases |d| - from
  {
    if from == |d| then None
    else if d[from] == Close(name) then Some(from)
    else FirstClose(d, name, from + 1)
  }

  /** Drops an opening CDATA marker at the start of the text. */
  function DropCDataOpen(a: string): string {
    if CDataOpen <= a then a[|CDataOpen|..] else a
  }

  /** Drops a closing CDATA marker at the end of the text. */
  function DropCDataClose(c: string): string {
    if |c| >= |CDataClose| && c[|c| - |CDataClose|..] == CDataClose then c[..|c| - |CDataClose|] else c
  }

  /** The capture group of the pattern on the text between the opening and
      the closing tag, then `.strip()`: `\s*` and the optional CDATA opening
      are taken greedily, and the lazy group leaves the longest tail of the
      form `]]>` followed by whitespace. */
  function Group(t: string): (r: string)
    ensures Clean(r)
  {
    Strip(DropCDataClose(RStrip(DropCDataOpen(LStrip(t)))))
  }

  lemma DropOpenMarker(x: string)
    ensures DropCDataOpen(CDataOpen + x) == x
  {
    assert CDataOpen <= CDataOpen + x;
  }

  lemma DropCloseMarker(x: string)
    ensures DropCDataClose(x + CDataClose) == x
  {
    var c := x + CDataClose;
    assert c[|c| - |CDataClose|..] == CDataClose;
    assert c[..|c| - |CDataClose|] == x;
  }

  /** The tokens the pattern's lazy group spans: from the first matching
      opening to the first `</name>` after it (see `InnerMeaning`). */
  function Inner(d: Doc, name: string): Option<Doc> {
    match FirstOpen(d, name, 0)
    case None => None
    case Some(i) =>
      match FirstClose(d, name, i + 1)
      case None => None
      case Some(j) => Some(d[i + 1..j])
  }

  /** `_tag(xml, name)`: the group taken from the text of those tokens, and
      stripped. */
  function Tag(d: Doc, name: string): (r: Option<string>)
    ensures r.Some? ==> Clean(r.value)
    ensures r.None? <==> Inner(d, name).None?
  {
    match Inner(d, name)
    case None => None
    case Some(c) => Some(Group(RenderAll(c)))
  }

  /** `_tag` finds nothing exactly when no opening the pattern matches is
      followed by `</name>`; otherwise it reads the tokens between the FIRST
      matching opening and the first `</name>` after it. */
  lemma InnerMeaning(d: Doc, name: string)
    ensures Inner(d, name).None? <==> !exists i, j :: Element(d, name, i, j)
    ensures Inner(d, name).Some? ==> exists i, j ::
              && Element(d, name, i, j)
              && (forall k :: 0 <= k < i ==> !OpensAs(d[k], name))
              && (forall k :: i < k < j ==> d[k] != Close(name))
              && Inner(d, name).value == d[i + 1..j]
  {
    match FirstOpen(d, name, 0)
    case None =>
    case Some(i) =>
      match FirstClose(d, name, i + 1)
      case None =>
        NoCloseAfterFirstOpen(d, name, i);
      case Some(j) =>
        assert Element(d, name, i, j);
  }

  /** When the first matching opening has no `</name>` after it, no later
      opening has one either. */
  lemma NoCloseAfterFirstOpen(d: Doc, name: string, i: nat)
    requires i < |d| && OpensAs(d[i], name)
    requires forall k :: 0 <= k < i ==> !OpensAs(d[k], name)
    requires forall k :: i + 1 <= k < |d| ==> d[k] != Close(name)
    ensures !exists i', j' :: Element(d, name, i', j')
  {
    forall i', j' | 0 <= i' < j' < |d| && OpensAs(d[i'], name)
      ensures d[j'] != Close(name)
    {
      assert i <= i';
    }
  }

  /** `_first_id`: the first `<id...>` element of a body. */
  function FirstId(d: Doc): Option<string> {
    Tag(d, "id")
  }

  /** A field written as the storefront writes it: `<name><![CDATA[v]]></name>`. */
  function Field(name: string, v: string): Doc {
    [Open(name, ""), CData(v), Close(name)]
  }

  predicate NoOpening(d: Doc, name: string) {
    forall k :: 0 <= k < |d| ==> !OpensAs(d[k], name)
  }

  lemma GroupOfCData(v: string)
    requires Clean(v)
    ensures Group(CDataOpen + v + CDataClose) == v
  {
    var body := v + CDataClose;
    assert CDataOpen + v + CDataClose == CDataOpen + body;
    assert (CDataOpen + body)[0] == '<';
    assert LStrip(CDataOpen + body) == CDataOpen + body;
    DropOpenMarker(body);
    assert body[|body| - 1] == '>';
    assert RStrip(body) == body;
    DropCloseMarker(v);
  }

  /** The CDATA wrapper and the whitespace around it are removed, and the
      value inside is stripped. */
  lemma {:induction false} GroupStripsWrapper(w1: string, v: string, w2: string)
    requires AllSpace(w1) && AllSpace(w2)
    ensures Group(w1 + CDataOpen + v + CDataClose + w2) == Strip(v)
  {
    var body := v + CDataClose + w2;
    var t := w1 + CDataOpen + v + CDataClose + w2;
    assert t == w1 + (CDataOpen + body);
    LStripSkipsSpace(w1, CDataOpen + body);
    assert (CDataOpen + body)[0] == '<';
    assert LStrip(t) == CDataOpen + body;
    DropOpenMarker(body);
    assert body == (v + CDataClose) + w2;
    RStripSkipsSpace(v + CDataClose, w2);
    assert (v + CDataClose)[|v + CDataClose| - 1] == '>';
    assert RStrip(body) == v + CDataClose;
    DropCloseMarker(v);
  }

  /** A field with nothing between the tags reads as the empty string. */
  lemma GroupOfNothing()
    ensures Group("") == ""
  {
  }

  lemma RenderOne(t: Token)
    ensures RenderAll([t]) == Render(t)
  {
    assert [t][..0] == [];
  }

  /** A field at the very start reads back as the value written in it. */
  lemma TagOfLeadingField(name: string, v: string, rest: Doc)
    requires Clean(v)
    ensures Tag(Field(name, v) + rest, name) == Some(v)
  {
    var d := Field(name, v) + rest;
    assert d[0] == Open(name, "") && d[1] == CData(v) && d[2] == Close(name);
    assert FirstOpen(d, name, 0) == Some(0);
    assert FirstClose(d, name, 1) == Some(2) by {
      assert d[1] != Close(name);
    }
    assert d[1..2] == [CData(v)];
    assert Inner(d, name) == Some([CData(v)]);
    RenderOne(CData(v));
    GroupOfCData(v);
  }

  /** The search for an opening from `from` stops at the first one. */
  lemma FirstOpenIs(d: Doc, name: string, from: nat, i: nat)
    requires from <= i < |d| && OpensAs(d[i], name)
    requires forall k :: from <= k < i ==> !OpensAs(d[k], name)
    ensures FirstOpen(d, name, from) == Some(i)
  {
    var r := FirstOpen(d, name, from);
    assert r.Some? && r.value <= i;
  }

  /** The search for a closing from `from` stops at the first one. */
  lemma FirstCloseIs(d: Doc, name: string, from: nat, j: nat)
    requires from <= j < |d| && d[j] == Close(name)
    requires forall k :: from <= k < j ==> d[k] != Close(name)
    ensures FirstClose(d, name, from) == Some(j)
  {
    var r := FirstClose(d, name, from);
    assert r.Some? && r.value <= j;
  }

  /** Shifts a position found in `rest` to its place in `x + rest`. */
  function Shift(r: Option<nat>, m: nat): Option<nat> {
    if r.Some? then Some(m + r.value) else None
  }

  /** Past a front free of matching openings, the first opening is the first
      one of the rest. */
  lemma FirstOpenPast(x: Doc, rest: Doc, name: string)
    requires NoOpening(x, name)
    ensures FirstOpen(x + rest, name, 0) == Shift(FirstOpen(rest, name, 0), |x|)
  {
    var d := x + rest;
    var m := |x|;
    match FirstOpen(rest, name, 0)
    case None =>
    case Some(i) =>
      forall k | 0 <= k < m + i
        ensures !OpensAs(d[k], name)
      {
        assert d[k] == if k < m then x[k] else rest[k - m];
      }
      assert d[m + i] == rest[i];
      FirstOpenIs(d, name, 0, m + i);
  }

  /** The first closing after a position of the rest is the same one in
      `x + rest`. */
  lemma FirstClosePast(x: Doc, rest: Doc, name: string, from: nat)
    requires from <= |rest|
    ensures FirstClose(x + rest, name, |x| + from) == Shift(FirstClose(rest, name, from), |x|)
  {
    var d := x + rest;
    var m := |x|;
    match FirstClose(rest, name, from)
    case None =>
    case Some(j) =>
      forall k | m + from <= k < m + j
        ensures d[k] != Close(name)
      {
        assert d[k] == rest[k - m];
      }
      assert d[m + j] == rest[j];
      FirstCloseIs(d, name, m + from, m + j);
  }

  /** Tokens in front that hold no opening answering a search for `name`
      change nothing in what the pattern spans. */
  lemma InnerSkips(x: Doc, rest: Doc, name: string)
    requires NoOpening(x, name)
    ensures Inner(x + rest, name) == Inner(rest, name)
  {
    var d := x + rest;
    var m := |x|;
    FirstOpenPast(x, rest, name);
    match FirstOpen(rest, name, 0)
    case None =>
    case Some(i) =>
      FirstClosePast(x, rest, name, i + 1);
      match FirstClose(rest, name, i + 1)
      case None =>
      case Some(j) =>
        assert d[m + i + 1..m + j] == rest[i + 1..j] by {
          assert d[m..] == rest;
        }
  }

  lemma TagSkips(x: Doc, rest: Doc, name: string)
    requires NoOpening(x, name)
    ensures Tag(x + rest, name) == Tag(rest, name)
  {
    InnerSkips(x, rest, name);
  }

  /** A field in front whose tag name `name` is not a prefix of is passed
      over by the search for `name`. */
  lemma SkipField(n: string, v: string, rest: Doc, name: string)
    requires !(name <= n)
    ensures Tag(Field(n, v) + rest, name) == Tag(rest, name)
  {
    assert NoOpening(Field(n, v), name);
    TagSkips(Field(n, v), rest, name);
  }

  /** Reading the field back: when no earlier opening answers the search for
      `name`, `_tag` returns the value written in the field. */
  lemma TagOfField(pre: Doc, name: string, v: string, post: Doc)
    requires NoOpening(pre, name)
    requires Clean(v)
    ensures Tag(pre + Field(name, v) + post, name) == Some(v)
  {
    assert pre + Field(name, v) + post == pre + (Field(name, v) + post);
    TagSkips(pre, Field(name, v) + post, name);
    TagOfLeadingField(name, v, post);
  }

  /** Fields written one after another, each as `Field` writes it. */
  function Fields(fs: seq<(string, string)>): Doc
    decreases |fs|
  {
    if fs == [] then [] else Field(fs[0].0, fs[0].1) + Fields(fs[1..])
  }

  /** Field `i` of a run of fields reads back as the value written in it when
      its name is not a prefix of the name of any field before it. */
  lemma {:induction false} ReadFields(fs: seq<(string, string)>, i: nat, tail: Doc)
    requires i < |fs| && Clean(fs[i].1)
    requires forall j :: 0 <= j < i ==> !(fs[i].0 <= fs[j].0)
    ensures Tag(Fields(fs) + tail, fs[i].0) == Some(fs[i].1)
    decreases i
  {
    var rest := Fields(fs[1..]) + tail;
    assert Fields(fs) + tail == Field(fs[0].0, fs[0].1) + rest;
    if i == 0 {
      TagOfLeadingField(fs[0].0, fs[0].1, rest);
    } else {
      SkipField(fs[0].0, fs[0].1, rest, fs[i].0);
      assert fs[1..][i - 1] == fs[i];
      forall j | 0 <= j < i - 1
        ensures !(fs[1..][i - 1].0 <= fs[1..][j].0)
      {
        assert fs[1..][j] == fs[j + 1];
      }
      ReadFields(fs[1..], i - 1, tail);
    }
  }

  /** A name is not a prefix of another that is shorter or that differs from
      it at some position. */
  lemma DiffersAt(name: string, other: string, i: nat)
    requires |name| > |other| || (i < |name| && i < |other| && name[i] != other[i])
    ensures !(name <= other)
  {
  }

  /** Opening tags whose names start with another letter than `name` do not
      answer a search for `name`. */
  lemma NoOpeningByInitial(d: Doc, name: string)
    requires name != ""
    requires forall k :: 0 <= k < |d| ==> d[k].Open? ==> d[k].name != "" && d[k].name[0] != name[0]
    ensures NoOpening(d, name)
  {
    forall k | 0 <= k < |d| && d[k].Open?
      ensures !(name <= d[k].name)
    {
      DiffersAt(name, d[k].name, 0);
    }
  }

  /** Reading a field that is not in the body gives nothing. */
  lemma TagOfAbsent(d: Doc, name: string)
    requires NoOpening(d, name)
    ensures Tag(d, name) == None
  {
    assert FirstOpen(d, name, 0) == None;
  }
}
