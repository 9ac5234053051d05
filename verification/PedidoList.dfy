/** The keyed, in-place reconciliation of the order list, against rendering it anew. */
module PedidoList {
  import opened Wrappers
  import opened Decimal
  import CashClosing
  import CashTyping

  /** What the list shows of an item. A quantity is its JavaScript number's own text. */
  datatype PedidoItem = PedidoItem(
    itemId: string,
    productLabel: string,
    note: Option<string>,
    setor: string,
    quantity: string,
    unitPriceCents: nat)

  /** The visible content of an element; amounts before `formatCurrency`. */
  datatype Shown =
    | ShownEmpty
    | ShownItem(itemId: string, renderKey: string, title: string, note: string, quantity: string, totalCents: int, recent: bool)

  // ---------- content and render keys ----------

  /** `Math.round(item.quantity * item.unitPriceCents)`. */
  function LineCents(item: PedidoItem): int {
    (CashClosing.ParseFloat(item.quantity).GetOr(0.0) * item.unitPriceCents as real + 0.5).Floor
  }

  /** A whole quantity shows exactly quantity times price. */
  lemma WholeLineCents(item: PedidoItem)
    requires AllDigits(item.quantity) && item.quantity != []
    ensures LineCents(item) == Read(item.quantity) * item.unitPriceCents
  {
    hide CashClosing.UnsignedPrefix, Read;
    CashTyping.WholeRead(item.quantity);
    CashTyping.ProductCast(Read(item.quantity), item.unitPriceCents);
  }

  function Join(parts: seq<string>): string
    requires parts != []
  {
    if |parts| == 1 then parts[0] else parts[0] + "|" + Join(parts[1..])
  }

  function KeyParts(item: PedidoItem, selected: bool): seq<string> {
    [item.itemId, item.productLabel, item.note.GetOr(""), item.setor, item.quantity, Print(item.unitPriceCents),
     if selected then "1" else "0"]
  }

  function GetPedidoItemRenderKey(item: PedidoItem, selected: bool): string {
    Join(KeyParts(item, selected))
  }

  function ShowItem(item: PedidoItem, selected: bool): Shown {
    ShownItem(item.itemId, GetPedidoItemRenderKey(item, selected), item.productLabel, item.note.GetOr(item.setor),
              item.quantity + "x", LineCents(item), selected)
  }

  /** `renderPedidoList`: a full rendering of the list. */
  function FullRender(items: seq<PedidoItem>, selected: Option<string>): (shown: seq<Shown>)
    ensures items != [] ==> |shown| == |items| && forall i :: 0 <= i < |items| ==>
              shown[i] == ShowItem(items[i], Some(items[i].itemId) == selected)
  {
    if items == [] then [ShownEmpty]
    else seq(|items|, i requires 0 <= i < |items| => ShowItem(items[i], Some(items[i].itemId) == selected))
  }

  /** `updatePedidoItemElement`: an element whose key is already the new one is left as it is. */
  function Refreshed(shown: Shown, item: PedidoItem, isSelected: bool): Shown {
    if shown.ShownItem? && shown.renderKey == GetPedidoItemRenderKey(item, isSelected) then shown else ShowItem(item, isSelected)
  }

  /** What the domain gives: an id, a quantity that is a number, a note that is absent rather than empty. */
  predicate Plain(item: PedidoItem) {
    item.itemId != "" && '|' !in item.itemId && '|' !in item.quantity && item.note != Some("")
  }

  /** The texts a user may enter hold no delimiter. */
  predicate NoDelimiter(item: PedidoItem) {
    '|' !in item.productLabel && '|' !in item.note.GetOr("") && '|' !in item.setor
  }

  lemma FirstPart(a: string, r: string, b: string, s: string)
    requires '|' !in a && '|' !in b && a + "|" + r == b + "|" + s
    ensures a == b && r == s
  {
    var whole := a + "|" + r;
    assert whole[|a|] == '|' && whole[|b|] == '|';
    assert forall i :: 0 <= i < |a| ==> whole[i] == a[i] && a[i] != '|';
    assert forall i :: 0 <= i < |b| ==> whole[i] == b[i] && b[i] != '|';
    assert |a| == |b|;
    assert whole[..|a|] == a && whole[..|b|] == b;
    assert whole[|a| + 1..] == r && whole[|b| + 1..] == s;
  }

  lemma {:induction false} JoinInjective(a: seq<string>, b: seq<string>)
    requires |a| == |b| > 0 && Join(a) == Join(b)
    requires forall i :: 0 <= i < |a| ==> '|' !in a[i] && '|' !in b[i]
    ensures a == b
  {
    if |a| > 1 {
      FirstPart(a[0], Join(a[1..]), b[0], Join(b[1..]));
      JoinInjective(a[1..], b[1..]);
      assert a == [a[0]] + a[1..] && b == [b[0]] + b[1..];
    }
  }

  function Bars(s: string): nat {
    multiset(s)['|']
  }

  function BarsIn(parts: seq<string>): nat {
    if parts == [] then 0 else Bars(parts[0]) + BarsIn(parts[1..])
  }

  lemma {:induction false} JoinBars(parts: seq<string>)
    requires parts != []
    ensures Bars(Join(parts)) == BarsIn(parts) + |parts| - 1
  {
    if |parts| > 1 {
      JoinBars(parts[1..]);
    }
  }

  lemma {:induction false} NoBars(parts: seq<string>)
    ensures BarsIn(parts) == 0 <==> forall i :: 0 <= i < |parts| ==> '|' !in parts[i]
  {
    if parts != [] {
      NoBars(parts[1..]);
      assert forall i :: 0 < i < |parts| ==> parts[i] == parts[1..][i - 1];
      assert Bars(parts[0]) == 0 <==> '|' !in parts[0];
    }
  }

  lemma KeyBars(item: PedidoItem, selected: bool)
    requires Plain(item)
    ensures BarsIn(KeyParts(item, selected)) == 0 <==> NoDelimiter(item)
  {
    var parts := KeyParts(item, selected);
    NoBars(parts);
    assert '|' !in Print(item.unitPriceCents) && '|' !in parts[6];
    assert parts[0] == item.itemId && parts[1] == item.productLabel && parts[2] == item.note.GetOr("") && parts[3] == item.setor;
  }

  /** A key without a delimiter in its texts belongs to one item only. */
  lemma KeyDecidesItem(a: PedidoItem, selectedA: bool, b: PedidoItem, selectedB: bool)
    requires Plain(a) && Plain(b) && NoDelimiter(a) && GetPedidoItemRenderKey(a, selectedA) == GetPedidoItemRenderKey(b, selectedB)
    ensures a == b && selectedA == selectedB
  {
    var p, q := KeyParts(a, selectedA), KeyParts(b, selectedB);
    hide Bars, Join, LineCents;
    KeyBars(a, selectedA);
    KeyBars(b, selectedB);
    JoinBars(p);
    JoinBars(q);
    NoBars(p);
    NoBars(q);
    JoinInjective(p, q);
    assert p[0] == q[0] && p[1] == q[1] && p[2] == q[2] && p[3] == q[3] && p[4] == q[4] && p[5] == q[5] && p[6] == q[6];
    PrintInjective(a.unitPriceCents, b.unitPriceCents);
  }

  /** The text before the first delimiter and the text after it. */
  function Cut(s: string): (r: (string, string))
    requires '|' in s
    ensures s == r.0 + "|" + r.1
  {
    var i := PlaceOf(s, '|');
    (s[..i], s[i + 1..])
  }

  function NoteOf(text: string): (note: Option<string>)
    ensures note != Some("") && note.GetOr("") == text
  {
    if text == "" then None else Some(text)
  }

  /** The same texts with the end of the label moved to another delimiter. */
  function Shifted(a: PedidoItem): PedidoItem
    requires !NoDelimiter(a)
  {
    if '|' in a.productLabel then
      var (before, behind) := Cut(a.productLabel);
      a.(productLabel := before, note := NoteOf(behind), setor := a.note.GetOr("") + "|" + a.setor)
    else if '|' in a.note.GetOr("") then
      var (before, behind) := Cut(a.note.GetOr(""));
      a.(productLabel := a.productLabel + "|" + before, note := NoteOf(behind))
    else
      var (before, behind) := Cut(a.setor);
      a.(productLabel := a.productLabel + "|" + a.note.GetOr(""), note := NoteOf(before), setor := behind)
  }

  lemma JoinNext(parts: seq<string>, i: nat)
    requires i + 1 < |parts|
    ensures Join(parts[i..]) == parts[i] + "|" + Join(parts[i + 1..])
  {
    assert parts[i..][1..] == parts[i + 1..];
  }

  lemma Regroup(id: string, a: string, b: string, c: string, rest: string)
    ensures id + "|" + (a + "|" + (b + "|" + (c + "|" + rest))) == id + "|" + (a + "|" + b + "|" + c) + "|" + rest
  {
    assert a + "|" + (b + "|" + (c + "|" + rest)) == (a + "|" + b + "|" + c) + ("|" + rest);
  }

  lemma JoinFour(parts: seq<string>)
    requires |parts| > 4
    ensures Join(parts) == parts[0] + "|" + (parts[1] + "|" + parts[2] + "|" + parts[3]) + "|" + Join(parts[4..])
  {
    hide Join;
    JoinNext(parts, 0);
    JoinNext(parts, 1);
    JoinNext(parts, 2);
    JoinNext(parts, 3);
    assert parts[0..] == parts;
    Regroup(parts[0], parts[1], parts[2], parts[3], Join(parts[4..]));
  }

  /** The part of a key a user can write. */
  function Texts(item: PedidoItem): string {
    item.productLabel + "|" + item.note.GetOr("") + "|" + item.setor
  }

  lemma ShiftedTexts(a: PedidoItem)
    requires !NoDelimiter(a)
    ensures Texts(Shifted(a)) == Texts(a) && |Shifted(a).productLabel| != |a.productLabel|
  {
  }

  lemma SameTextsSameKey(a: PedidoItem, b: PedidoItem, selected: bool)
    requires Texts(a) == Texts(b) && a.itemId == b.itemId && a.quantity == b.quantity && a.unitPriceCents == b.unitPriceCents
    ensures GetPedidoItemRenderKey(a, selected) == GetPedidoItemRenderKey(b, selected)
  {
    hide Join;
    JoinFour(KeyParts(a, selected));
    JoinFour(KeyParts(b, selected));
    assert KeyParts(a, selected)[4..] == KeyParts(b, selected)[4..];
  }

  /** An item with the delimiter in a text shares its key with another one that shows something else. */
  lemma ShiftedSharesKey(a: PedidoItem, selected: bool)
    requires Plain(a) && !NoDelimiter(a)
    ensures Plain(Shifted(a)) && GetPedidoItemRenderKey(Shifted(a), selected) == GetPedidoItemRenderKey(a, selected)
    ensures ShowItem(Shifted(a), selected) != ShowItem(a, selected)
  {
    ShiftedTexts(a);
    SameTextsSameKey(a, Shifted(a), selected);
    hide Cut, LineCents, Texts, GetPedidoItemRenderKey;
  }

  /** Whatever an element shows, an update for this item shows the item. */
  ghost predicate AlwaysRefreshed(a: PedidoItem) {
    forall b: PedidoItem, selectedA: bool, selectedB: bool :: Plain(b) ==>
      Refreshed(ShowItem(b, selectedB), a, selectedA) == ShowItem(a, selectedA)
  }

  /** Equal keys mean equal content exactly for the items without the delimiter in their texts. */
  lemma KeyDecidesContent(a: PedidoItem)
    requires Plain(a)
    ensures NoDelimiter(a) <==> AlwaysRefreshed(a)
  {
    if NoDelimiter(a) {
      forall b: PedidoItem, selectedA: bool, selectedB: bool | Plain(b)
        ensures Refreshed(ShowItem(b, selectedB), a, selectedA) == ShowItem(a, selectedA) {
        if GetPedidoItemRenderKey(b, selectedB) == GetPedidoItemRenderKey(a, selectedA) {
          KeyDecidesItem(a, selectedA, b, selectedB);
        }
      }
    } else {
      ShiftedSharesKey(a, false);
      assert Refreshed(ShowItem(Shifted(a), false), a, false) != ShowItem(a, false);
    }
  }

  /** What a rendering of an item shows. */
  ghost predicate FromItem(shown: Shown) {
    exists b: PedidoItem, selected: bool :: Plain(b) && shown == ShowItem(b, selected)
  }

  lemma KeyWithoutDelimiter(shown: Shown, item: PedidoItem, isSelected: bool)
    ensures Plain(item) && NoDelimiter(item) && FromItem(shown) ==> Refreshed(shown, item, isSelected) == ShowItem(item, isSelected)
  {
    if Plain(item) && NoDelimiter(item) && FromItem(shown) {
      KeyDecidesContent(item);
      hide ShowItem, Refreshed, Plain, NoDelimiter;
    }
  }

  const LABELLED: PedidoItem := PedidoItem("1", "Suco|gelo", None, "BAR", "1", 500)
  const NOTED: PedidoItem := PedidoItem("1", "Suco", Some("gelo"), "|BAR", "1", 500)

  /** The label of the one cut at its delimiter gives the other. */
  lemma LabelledIsShifted()
    ensures Plain(LABELLED) && !NoDelimiter(LABELLED) && Shifted(LABELLED) == NOTED
  {
    hide PlaceOf;
    var title := LABELLED.productLabel;
    assert title[4] == '|';
    PlaceIsAt(title, '|', 4);
    assert title[..4] == "Suco" && title[5..] == "gelo";
  }

  lemma PlaceIsAt(s: string, c: char, i: nat)
    requires i < |s| && s[i] == c && forall j :: 0 <= j < i ==> s[j] != c
    ensures PlaceOf(s, c) == i
  {
    var p := PlaceOf(s, c);
    assert !(i < p) && !(p < i);
  }

  /** One such pair. */
  lemma KeyWithDelimiterIsAmbiguous()
    ensures GetPedidoItemRenderKey(LABELLED, false) == GetPedidoItemRenderKey(NOTED, false)
    ensures ShowItem(LABELLED, false) != ShowItem(NOTED, false)
  {
    hide Plain, NoDelimiter, Shifted, GetPedidoItemRenderKey, ShowItem;
    LabelledIsShifted();
    ShiftedSharesKey(LABELLED, false);
  }

  // ---------- the DOM ----------

  datatype NodeKind = TextNode | EmptyCopy | ItemElement

  class Node {
    const kind: NodeKind
    var itemId: string
    var renderKey: string
    var title: string
    var note: string
    var quantity: string
    var totalCents: int
    var recent: bool

    function View(): Shown
      reads this
    {
      if kind.ItemElement? then ShownItem(itemId, renderKey, title, note, quantity, totalCents, recent) else ShownEmpty
    }

    constructor Other(kind: NodeKind)
      requires !kind.ItemElement?
      ensures this.kind == kind
    {
      this.kind := kind;
    }

    /** `createElementFromHtml(renderPedidoItem(..))`. */
    constructor RenderPedidoItem(item: PedidoItem, isSelected: bool)
      ensures kind == ItemElement && View() == ShowItem(item, isSelected)
    {
      kind := ItemElement;
      itemId, renderKey := item.itemId, GetPedidoItemRenderKey(item, isSelected);
      title, note := item.productLabel, item.note.GetOr(item.setor);
      quantity, totalCents, recent := item.quantity + "x", LineCents(item), isSelected;
    }

    /** `updatePedidoItemElement`: nothing is touched when the key has not changed. */
    method Update(item: PedidoItem, isSelected: bool)
      requires kind.ItemElement?
      modifies this
      ensures View() == Refreshed(old(View()), item, isSelected)
      ensures Plain(item) && NoDelimiter(item) && FromItem(old(View())) ==> View() == ShowItem(item, isSelected)
    {
      KeyWithoutDelimiter(View(), item, isSelected);
      hide Join, LineCents, Plain, NoDelimiter, FromItem;
      var key := GetPedidoItemRenderKey(item, isSelected);
      if renderKey == key {
        return;
      }
      renderKey := key;
      itemId := item.itemId;
      recent := isSelected;
      title := item.productLabel;
      note := item.note.GetOr(item.setor);
      quantity := item.quantity + "x";
      totalCents := LineCents(item);
    }
  }

  // ---------- child lists ----------

  predicate NoDuplicates<T(==)>(xs: seq<T>) {
    forall i, j :: 0 <= i < j < |xs| ==> xs[i] != xs[j]
  }

  function PlaceOf<T(==)>(xs: seq<T>, x: T): (i: nat)
    ensures i <= |xs|
    ensures i < |xs| ==> xs[i] == x
    ensures forall j :: 0 <= j < i ==> xs[j] != x
  {
    if xs == [] || xs[0] == x then 0 else 1 + PlaceOf(xs[1..], x)
  }

  /** `x.remove()`; nothing happens to a node that is not a child. */
  function Removed<T(==)>(xs: seq<T>, x: T): seq<T> {
    var i := PlaceOf(xs, x);
    if i == |xs| then xs else xs[..i] + xs[i + 1..]
  }

  /** `insertBefore(x, cursor)`: x leaves its place first; no cursor means the end. */
  function InsertBefore<T(==)>(xs: seq<T>, x: T, cursor: Option<T>): seq<T> {
    var rest := Removed(xs, x);
    var i := if cursor.Some? then PlaceOf(rest, cursor.value) else |rest|;
    rest[..i] + [x] + rest[i..]
  }

  function Head<T>(xs: seq<T>): Option<T> {
    if xs == [] then None else Some(xs[0])
  }

  lemma PlaceIs<T>(xs: seq<T>, i: nat)
    requires NoDuplicates(xs) && i < |xs|
    ensures PlaceOf(xs, xs[i]) == i
  {
    var p := PlaceOf(xs, xs[i]);
    assert !(i < p);
  }

  /** Moving the p-th of the rest in front of the rest. */
  lemma MovesUp<T>(done: seq<T>, rest: seq<T>, p: nat)
    requires NoDuplicates(done + rest) && 0 < p < |rest|
    ensures InsertBefore(done + rest, rest[p], Head(rest)) == done + [rest[p]] + (rest[..p] + rest[p + 1..])
    ensures NoDuplicates(done + [rest[p]] + (rest[..p] + rest[p + 1..]))
  {
    var all, x := done + rest, rest[p];
    assert all[|done| + p] == x;
    PlaceIs(all, |done| + p);
    var without := done + (rest[..p] + rest[p + 1..]);
    assert Removed(all, x) == without;
    assert without[|done|] == rest[0];
    WithoutNoDuplicates(all, |done| + p);
    assert all[..|done| + p] + all[|done| + p + 1..] == without;
    PlaceIs(without, |done|);
    var moved := done + [x] + (rest[..p] + rest[p + 1..]);
    assert without[..|done|] == done && without[|done|..] == rest[..p] + rest[p + 1..];
    InsertNoDuplicates(without, |done|, x);
    assert without[..|done|] + [x] + without[|done|..] == moved;
  }

  lemma WithoutNoDuplicates<T>(xs: seq<T>, p: nat)
    requires NoDuplicates(xs) && p < |xs|
    ensures NoDuplicates(xs[..p] + xs[p + 1..]) && xs[p] !in xs[..p] + xs[p + 1..]
  {
    var ys := xs[..p] + xs[p + 1..];
    forall i | 0 <= i < |ys| ensures ys[i] == xs[if i < p then i else i + 1] {
    }
  }

  lemma InsertNoDuplicates<T>(ys: seq<T>, at: nat, x: T)
    requires NoDuplicates(ys) && at <= |ys| && x !in ys
    ensures NoDuplicates(ys[..at] + [x] + ys[at..])
  {
    var zs := ys[..at] + [x] + ys[at..];
    forall i | 0 <= i < |zs| ensures zs[i] == if i == at then x else ys[if i < at then i else i - 1] {
    }
  }

  lemma RemovedMembers<T>(xs: seq<T>, x: T)
    requires NoDuplicates(xs)
    ensures NoDuplicates(Removed(xs, x))
    ensures forall y :: y in Removed(xs, x) <==> y in xs && y != x
  {
    var p := PlaceOf(xs, x);
    if p < |xs| {
      WithoutNoDuplicates(xs, p);
      assert xs == xs[..p] + [xs[p]] + xs[p + 1..];
    }
  }

  lemma RemovedAt<T>(xs: seq<T>, i: nat)
    requires NoDuplicates(xs) && i < |xs|
    ensures Removed(xs, xs[i]) == xs[..i] + xs[i + 1..]
  {
    PlaceIs(xs, i);
  }

  /** A new node in front of the rest. */
  lemma NewInFront<T>(done: seq<T>, rest: seq<T>, x: T)
    requires NoDuplicates(done + rest) && x !in done + rest
    ensures InsertBefore(done + rest, x, Head(rest)) == done + [x] + rest
    ensures NoDuplicates(done + [x] + rest)
  {
    var all := done + rest;
    assert PlaceOf(all, x) == |all|;
    assert Removed(all, x) == all;
    if rest != [] {
      assert all[|done|] == rest[0];
      PlaceIs(all, |done|);
    }
    assert all[..|done|] == done && all[|done|..] == rest;
    InsertNoDuplicates(all, |done|, x);
  }

  lemma RestNoDuplicates<T>(done: seq<T>, rest: seq<T>)
    requires NoDuplicates(done + rest)
    ensures NoDuplicates(rest)
  {
    forall i, j | 0 <= i < j < |rest| ensures rest[i] != rest[j] {
      assert (done + rest)[|done| + i] == rest[i] && (done + rest)[|done| + j] == rest[j];
    }
  }

  lemma MoveExisting<T>(done: seq<T>, rest: seq<T>, x: T)
    requires NoDuplicates(done + rest) && x in rest && x != rest[0]
    ensures InsertBefore(done + rest, x, Head(rest)) == done + [x] + Removed(rest, x)
    ensures NoDuplicates(done + [x] + Removed(rest, x)) && Head(Removed(rest, x)) == Head(rest)
  {
    var p :| 0 <= p < |rest| && rest[p] == x;
    RestNoDuplicates(done, rest);
    RemovedAt(rest, p);
    MovesUp(done, rest, p);
  }

  lemma KeepFirst<T>(done: seq<T>, rest: seq<T>)
    requires NoDuplicates(done + rest) && rest != []
    ensures Removed(rest, rest[0]) == rest[1..] && done + rest == done + [rest[0]] + rest[1..]
    ensures PlaceOf(done + rest, rest[0]) == |done|
  {
    RestNoDuplicates(done, rest);
    RemovedAt(rest, 0);
    assert (done + rest)[|done|] == rest[0];
    PlaceIs(done + rest, |done|);
  }

  lemma NotInDone<T>(done: seq<T>, rest: seq<T>, x: T)
    requires NoDuplicates(done + rest) && x in rest
    ensures x !in done
  {
    var j :| 0 <= j < |rest| && rest[j] == x;
    forall i | 0 <= i < |done| ensures done[i] != x {
      assert (done + rest)[i] == done[i] && (done + rest)[|done| + j] == x;
    }
  }

  lemma StaleOut<T>(done: seq<T>, rest: seq<T>, x: T)
    requires NoDuplicates(done + rest) && x in rest
    ensures Removed(done + rest, x) == done + Removed(rest, x) && NoDuplicates(done + Removed(rest, x))
    ensures NoDuplicates(rest) && forall y :: y in Removed(rest, x) <==> y in rest && y != x
  {
    var p :| 0 <= p < |rest| && rest[p] == x;
    RestNoDuplicates(done, rest);
    RemovedAt(rest, p);
    assert (done + rest)[|done| + p] == x;
    RemovedAt(done + rest, |done| + p);
    RemovedMembers(done + rest, x);
    RemovedMembers(rest, x);
    assert (done + rest)[..|done| + p] + (done + rest)[|done| + p + 1..] == done + (rest[..p] + rest[p + 1..]);
  }

  /** `x.nextSibling`. */
  function NextSibling<T(==)>(xs: seq<T>, x: T): Option<T> {
    var i := PlaceOf(xs, x);
    if i + 1 < |xs| then Some(xs[i + 1]) else None
  }

  /** The nodes of a kind, in order. */
  function OfKind(nodes: seq<Node>, texts: bool): seq<Node> {
    if nodes == [] then []
    else (if nodes[0].kind.TextNode? == texts then [nodes[0]] else []) + OfKind(nodes[1..], texts)
  }

  lemma {:induction false} OfKindConcat(a: seq<Node>, b: seq<Node>, texts: bool)
    ensures OfKind(a + b, texts) == OfKind(a, texts) + OfKind(b, texts)
  {
    if a == [] {
      assert a + b == b;
    } else {
      assert (a + b)[1..] == a[1..] + b;
      OfKindConcat(a[1..], b, texts);
    }
  }

  lemma {:induction false} AllOfKind(nodes: seq<Node>, texts: bool)
    requires forall n :: n in nodes ==> n.kind.TextNode? == texts
    ensures OfKind(nodes, texts) == nodes && OfKind(nodes, !texts) == []
  {
    if nodes != [] {
      AllOfKind(nodes[1..], texts);
    }
  }

  /** Removing an element keeps the text nodes. */
  lemma TextsStay(nodes: seq<Node>, x: Node)
    requires !x.kind.TextNode?
    ensures OfKind(Removed(nodes, x), true) == OfKind(nodes, true)
  {
    var p := PlaceOf(nodes, x);
    if p < |nodes| {
      assert nodes == nodes[..p] + ([x] + nodes[p + 1..]);
      OfKindConcat(nodes[..p], [x] + nodes[p + 1..], true);
      OfKindConcat([x], nodes[p + 1..], true);
      OfKindConcat(nodes[..p], nodes[p + 1..], true);
      assert [x][1..] == [];
    }
  }

  // ---------- before, during and after a reconciliation ----------

  /** The list before a reconciliation: its children, its elements by id, and what they showed. */
  datatype Before = Before(start: seq<Node>, found: map<string, Node>, shown: map<string, Shown>)

  /** An id found in the list keeps its element; another id gets a new one. */
  predicate Reused(node: Node, id: string, was: Before) {
    if id in was.found then node == was.found[id] else node !in was.start
  }

  ghost function ViewsOf(found: map<string, Node>): map<string, Shown>
    reads found.Values
  {
    map id | id in found :: found[id].View()
  }

  /** What is shown by id are elements of those ids. */
  predicate OwnIds(shown: map<string, Shown>) {
    forall id :: id in shown ==> shown[id].ShownItem? && shown[id].itemId == id
  }

  ghost predicate Named(nodes: seq<Node>)
    reads nodes
  {
    forall n :: n in nodes && n.kind.ItemElement? ==> n.itemId != ""
  }

  ghost predicate ById(existing: map<string, Node>, nodes: seq<Node>)
    reads nodes
  {
    && (forall id :: id in existing ==> existing[id] in nodes && existing[id].kind.ItemElement? && existing[id].itemId == id)
    && (forall n :: n in nodes && n.kind.ItemElement? ==> n.itemId in existing && existing[n.itemId] == n)
  }

  /** Items with distinct ids. */
  predicate ItemsOk(items: seq<PedidoItem>) {
    && (forall i :: 0 <= i < |items| ==> items[i].itemId != "")
    && (forall i, j :: 0 <= i < j < |items| ==> items[i].itemId != items[j].itemId)
  }

  /** What an item's element shows afterwards: a surviving element is refreshed, another one rendered. */
  function Expected(shown: map<string, Shown>, item: PedidoItem, selected: Option<string>): Shown {
    if item.itemId in shown then Refreshed(shown[item.itemId], item, Some(item.itemId) == selected)
    else ShowItem(item, Some(item.itemId) == selected)
  }

  /** One element an item, in item order. */
  ghost predicate Placed(nodes: seq<Node>, items: seq<PedidoItem>, selected: Option<string>, shown: map<string, Shown>)
    reads nodes
  {
    && |nodes| == |items|
    && forall j :: 0 <= j < |nodes| ==> nodes[j].kind.ItemElement? && nodes[j].View() == Expected(shown, items[j], selected)
  }

  /** The items' elements in item order, each rendered or refreshed, then the old text nodes. */
  ghost predicate Listed(children: seq<Node>, items: seq<PedidoItem>, selected: Option<string>, was: Before)
    reads children
  {
    && |items| <= |children| && NoDuplicates(children)
    && Placed(children[..|items|], items, selected, was.shown)
    && children[|items|..] == OfKind(was.start, true)
    && forall j :: 0 <= j < |items| ==> Reused(children[j], items[j].itemId, was)
  }

  /** The first i items are placed, each in the element it had or in a new one; the rest is what is left
      of the old children, with its elements in the Map and still as they were. */
  ghost predicate Midway(items: seq<PedidoItem>, selected: Option<string>, i: nat, existing: map<string, Node>, was: Before,
                         done: seq<Node>, rest: seq<Node>)
    reads done, rest
  {
    && i <= |items| && NoDuplicates(done + rest)
    && Placed(done, items[..i], selected, was.shown)
    && (forall j :: 0 <= j < i ==> Reused(done[j], items[j].itemId, was))
    && (forall n :: n in rest ==> n in was.start && !n.kind.EmptyCopy?)
    && ById(existing, rest) && was.shown.Keys == was.found.Keys
    && (forall id :: id in existing ==> id in was.found && existing[id] == was.found[id] && existing[id].View() == was.shown[id])
    && (forall j :: i <= j < |items| && items[j].itemId in was.found ==> items[j].itemId in existing)
    && OfKind(rest, true) == OfKind(was.start, true)
  }

  /** The empty copy is gone and nothing else has changed. */
  ghost predicate Prepared(children: seq<Node>, was: Before)
    reads children
  {
    && ById(was.found, children) && was.shown == ViewsOf(was.found) && OfKind(children, true) == OfKind(was.start, true)
    && forall n :: n in children ==> n in was.start && !n.kind.EmptyCopy?
  }

  /** The elements are what a full rendering shows. */
  ghost predicate Shows(elements: seq<Node>, items: seq<PedidoItem>, selected: Option<string>)
    reads elements
  {
    && |elements| == |FullRender(items, selected)|
    && forall j :: 0 <= j < |elements| ==>
         && elements[j].View() == FullRender(items, selected)[j]
         && elements[j].kind == if items == [] then EmptyCopy else ItemElement
  }

  /** An element whose key is already the item's shows the item. */
  predicate UpToDate(shown: map<string, Shown>, item: PedidoItem, selected: Option<string>) {
    item.itemId in shown && shown[item.itemId].ShownItem?
    && shown[item.itemId].renderKey == GetPedidoItemRenderKey(item, Some(item.itemId) == selected) ==>
      shown[item.itemId] == ShowItem(item, Some(item.itemId) == selected)
  }

  predicate NothingStale(shown: map<string, Shown>, items: seq<PedidoItem>, selected: Option<string>) {
    forall j :: 0 <= j < |items| ==> UpToDate(shown, items[j], selected)
  }

  /** The first i items are rendered, each in an element of its own. */
  ghost predicate Rendered(children: seq<Node>, elements: seq<Node>, items: seq<PedidoItem>, selected: Option<string>, i: nat)
    reads elements
  {
    && i <= |items| && NoDuplicates(children) && elements == OfKind(children, false) && Placed(elements, items[..i], selected, map[])
  }

  // ---------- steps of the proof ----------

  lemma SameMap(a: map<string, Node>, b: map<string, Node>, nodes: seq<Node>)
    requires ById(a, nodes) && ById(b, nodes)
    ensures a == b
  {
    assert forall id :: id in a <==> id in b;
  }

  lemma RestIsKnown(items: seq<PedidoItem>, selected: Option<string>, existing: map<string, Node>, was: Before,
                    done: seq<Node>, rest: seq<Node>)
    requires Midway(items, selected, |items|, existing, was, done, rest)
    ensures NoDuplicates(done + rest) && OfKind(rest, true) == OfKind(was.start, true) && |done| == |items|
    ensures Placed(done, items, selected, was.shown)
    ensures forall j :: 0 <= j < |items| ==> Reused(done[j], items[j].itemId, was)
    ensures forall n :: n in existing.Values ==> n in rest && n.kind.ItemElement?
    ensures forall n :: n in rest ==> (n.kind.TextNode? || n in existing.Values)
  {
    assert items[..|items|] == items;
    forall n | n in rest && n.kind.ItemElement? ensures n in existing.Values {
      assert n.itemId in existing && existing[n.itemId] == n;
    }
  }

  lemma TwoMore(nodes: seq<Node>, space: Node, element: Node)
    requires space.kind.TextNode? && element.kind.ItemElement?
    ensures OfKind(nodes + [space, element], false) == OfKind(nodes, false) + [element]
    ensures NoDuplicates(nodes) && space !in nodes && element !in nodes ==> NoDuplicates(nodes + [space, element])
  {
    OfKindConcat(nodes, [space, element], false);
    assert [space, element][1..] == [element] && [element][1..] == [];
    assert OfKind([element], false) == [element];
  }

  lemma RenderedIsValid(items: seq<PedidoItem>, selected: Option<string>, children: seq<Node>, elements: seq<Node>)
    requires ItemsOk(items) && Placed(elements, items, selected, map[]) && elements == OfKind(children, false)
    ensures Named(children)
    ensures forall m, n :: m in children && n in children && m.kind.ItemElement? && n.kind.ItemElement? && m.itemId == n.itemId ==> m == n
    ensures forall n :: n in children ==> !n.kind.EmptyCopy?
  {
    ElementsIn(children);
    PlacedIds(items, selected, map[], elements);
    PlacedApart(items, elements);
    hide Placed, OfKind;
  }

  lemma OneNode(node: Node)
    ensures NoDuplicates([node])
  {
  }

  lemma {:induction false} TextsOnly(nodes: seq<Node>)
    ensures forall n :: n in OfKind(nodes, true) ==> n.kind.TextNode? && n in nodes
  {
    if nodes != [] {
      TextsOnly(nodes[1..]);
    }
  }

  lemma {:induction false} ElementsIn(nodes: seq<Node>)
    ensures forall n :: n in nodes && !n.kind.TextNode? ==> n in OfKind(nodes, false)
  {
    if nodes != [] {
      ElementsIn(nodes[1..]);
    }
  }

  lemma OnlyElement(nodes: seq<Node>)
    requires |OfKind(nodes, false)| == 1 && exists n :: n in nodes && n.kind.EmptyCopy?
    ensures OfKind(nodes, false)[0].kind.EmptyCopy?
  {
    ElementsIn(nodes);
  }

  /** Nothing was there: every element is new. */
  lemma NothingThere(items: seq<PedidoItem>, selected: Option<string>)
    ensures NothingStale(map[], items, selected)
  {
  }

  lemma PlacedShows(items: seq<PedidoItem>, selected: Option<string>, shown: map<string, Shown>, done: seq<Node>)
    requires items != [] && Placed(done, items, selected, shown)
    ensures Shows(done, items, selected) <==> NothingStale(shown, items, selected)
  {
    forall j | 0 <= j < |items|
      ensures done[j].View() == FullRender(items, selected)[j] <==> UpToDate(shown, items[j], selected) {
      UpToDateShows(shown, items[j], selected);
    }
    hide ShowItem, Refreshed, UpToDate, Expected, FullRender;
  }

  lemma UpToDateShows(shown: map<string, Shown>, item: PedidoItem, selected: Option<string>)
    ensures Expected(shown, item, selected) == ShowItem(item, Some(item.itemId) == selected) <==> UpToDate(shown, item, selected)
  {
    hide ShowItem, GetPedidoItemRenderKey;
  }

  lemma OneMorePlaced(done: seq<Node>, placed: Node, items: seq<PedidoItem>, selected: Option<string>, shown: map<string, Shown>, i: nat)
    requires i < |items| && Placed(done, items[..i], selected, shown)
    requires placed.kind.ItemElement? && placed.View() == Expected(shown, items[i], selected)
    ensures Placed(done + [placed], items[..i + 1], selected, shown)
  {
    hide Expected;
    assert items[..i + 1] == items[..i] + [items[i]];
  }

  lemma PlacedIds(items: seq<PedidoItem>, selected: Option<string>, shown: map<string, Shown>, done: seq<Node>)
    requires Placed(done, items, selected, shown) && OwnIds(shown)
    ensures |done| == |items| && forall i :: 0 <= i < |done| ==> done[i].itemId == items[i].itemId
  {
    hide Join, LineCents;
  }

  lemma PlacedApart(items: seq<PedidoItem>, done: seq<Node>)
    requires |done| == |items| && forall i :: 0 <= i < |done| ==> done[i].itemId == items[i].itemId
    requires forall i, j :: 0 <= i < j < |items| ==> items[i].itemId != items[j].itemId
    ensures forall m, n :: m in done && n in done && m.itemId == n.itemId ==> m == n
  {
  }

  lemma ListedIsValid(items: seq<PedidoItem>, selected: Option<string>, was: Before, children: seq<Node>)
    requires ItemsOk(items) && items != [] && Listed(children, items, selected, was) && OwnIds(was.shown)
    ensures NoDuplicates(children) && Named(children)
    ensures Shows(OfKind(children, false), items, selected) <==> NothingStale(was.shown, items, selected)
    ensures forall m, n :: m in children && n in children && m.kind.ItemElement? && n.kind.ItemElement? && m.itemId == n.itemId ==> m == n
    ensures forall n :: n in children ==> !n.kind.EmptyCopy?
  {
    var done, texts := children[..|items|], children[|items|..];
    assert children == done + texts;
    TextsOnly(was.start);
    hide NothingStale, Shows;
    ElementsAre(done, texts);
    PlacedShows(items, selected, was.shown, done);
    PlacedIds(items, selected, was.shown, done);
    PlacedApart(items, done);
    hide Expected, OfKind;
  }

  lemma ElementsAre(done: seq<Node>, texts: seq<Node>)
    requires forall n :: n in done ==> n.kind.ItemElement?
    requires forall n :: n in texts ==> n.kind.TextNode?
    ensures OfKind(done + texts, false) == done
  {
    OfKindConcat(done, texts, false);
    AllOfKind(done, false);
    AllOfKind(texts, true);
  }

  /** Taking an element out of the rest: it is not placed yet, and the text nodes stay. */
  lemma TakenOut(done: seq<Node>, rest: seq<Node>, x: Node)
    requires NoDuplicates(done + rest) && x in rest && !x.kind.TextNode?
    ensures x !in done && OfKind(Removed(rest, x), true) == OfKind(rest, true)
    ensures forall y :: y in Removed(rest, x) <==> y in rest && y != x
  {
    NotInDone(done, rest, x);
    RestNoDuplicates(done, rest);
    TextsStay(rest, x);
    RemovedMembers(rest, x);
  }

  // ---------- when a reconciliation shows what a full rendering shows ----------

  predicate AllPlain(items: seq<PedidoItem>) {
    forall i :: 0 <= i < |items| ==> Plain(items[i])
  }

  /** Elements rendered from items. */
  ghost predicate FromItems(shown: map<string, Shown>) {
    OwnIds(shown) && forall id :: id in shown ==> FromItem(shown[id])
  }

  /** Whatever items were shown before, the list ends as a full rendering would show it. */
  ghost predicate AlwaysShows(items: seq<PedidoItem>, selected: Option<string>) {
    forall shown: map<string, Shown> :: FromItems(shown) ==> NothingStale(shown, items, selected)
  }

  /** Reconciling to a list of items always shows it if and only if no item has the delimiter in a text. */
  lemma ReconciliationIsExact(items: seq<PedidoItem>, selected: Option<string>)
    requires AllPlain(items)
    ensures AlwaysShows(items, selected) <==> forall i :: 0 <= i < |items| ==> NoDelimiter(items[i])
  {
    hide ShowItem, GetPedidoItemRenderKey, Plain, NoDelimiter, Refreshed, FromItem;
    if forall i :: 0 <= i < |items| ==> NoDelimiter(items[i]) {
      forall shown: map<string, Shown>, j | FromItems(shown) && 0 <= j < |items| ensures UpToDate(shown, items[j], selected) {
        NeverStale(shown, items[j], selected);
      }
    } else {
      var i :| 0 <= i < |items| && !NoDelimiter(items[i]);
      StaleBefore(items, selected, i);
    }
  }

  lemma NeverStale(shown: map<string, Shown>, item: PedidoItem, selected: Option<string>)
    requires FromItems(shown) && Plain(item) && NoDelimiter(item)
    ensures UpToDate(shown, item, selected)
  {
    if item.itemId in shown {
      KeyWithoutDelimiter(shown[item.itemId], item, Some(item.itemId) == selected);
      hide ShowItem, GetPedidoItemRenderKey, Plain, NoDelimiter, FromItem;
    }
  }

  ghost predicate ShowsItems(nodes: seq<Node>)
    reads nodes
  {
    forall n :: n in nodes && n.kind.ItemElement? ==> FromItem(n.View())
  }

  /** A reconciliation leaves elements that show items, so the next one starts from such a list. */
  lemma ListedShowsItems(items: seq<PedidoItem>, selected: Option<string>, was: Before, children: seq<Node>)
    requires Listed(children, items, selected, was) && FromItems(was.shown) && AllPlain(items)
    ensures ShowsItems(children)
  {
    TextsOnly(was.start);
    forall j | 0 <= j < |items| ensures FromItem(children[j].View()) {
      assert children[..|items|][j] == children[j] && Plain(items[j]);
      assert FromItem(ShowItem(items[j], Some(items[j].itemId) == selected));
      hide ShowItem, GetPedidoItemRenderKey, FromItem;
    }
    hide Placed, FromItem, OfKind;
    assert forall j :: |items| <= j < |children| ==> children[j] == children[|items|..][j - |items|];
  }

  /** The other item with the same key, shown before, stays. */
  lemma StaleBefore(items: seq<PedidoItem>, selected: Option<string>, i: nat)
    requires i < |items| && Plain(items[i]) && !NoDelimiter(items[i])
    ensures !AlwaysShows(items, selected)
  {
    var item := items[i];
    var isSelected := Some(item.itemId) == selected;
    var other := Shifted(item);
    assert other.itemId == item.itemId;
    ShiftedSharesKey(item, isSelected);
    var shown := map[item.itemId := ShowItem(other, isSelected)];
    assert FromItem(ShowItem(other, isSelected));
    hide Shifted, LineCents, Plain, NoDelimiter, FromItem, GetPedidoItemRenderKey;
    assert FromItems(shown) && !UpToDate(shown, items[i], selected);
  }

  // ---------- the container ----------

  class PedidoContainer {
    var children: seq<Node>

    ghost predicate Valid()
      reads this, children
    {
      && NoDuplicates(children)
      && Named(children)
      && (forall m, n :: m in children && n in children && m.kind.ItemElement? && n.kind.ItemElement? && m.itemId == n.itemId ==> m == n)
      && (forall m, n :: m in children && n in children && m.kind.EmptyCopy? && n.kind.EmptyCopy? ==> m == n)
    }

    constructor ()
      ensures Valid() && children == []
    {
      children := [];
    }

    method RenderNext(items: seq<PedidoItem>, selected: Option<string>, i: nat, ghost elements: seq<Node>) returns (element: Node)
      requires i < |items| && Rendered(children, elements, items, selected, i)
      modifies this
      ensures Rendered(children, elements + [element], items, selected, i + 1)
    {
      hide ShowItem, NoDuplicates;
      var space := new Node.Other(TextNode);
      element := new Node.RenderPedidoItem(items[i], Some(items[i].itemId) == selected);
      TwoMore(children, space, element);
      assert items[..i + 1] == items[..i] + [items[i]];
      children := children + [space, element];
    }

    /** A full rendering through innerHTML: new elements only, white space between them. */
    method Render(items: seq<PedidoItem>, selected: Option<string>)
      modifies this
      ensures Shows(OfKind(children, false), items, selected)
      ensures ItemsOk(items) ==> Valid()
    {
      if items == [] {
        var copy := new Node.Other(EmptyCopy);
        children := [copy];
        return;
      }
      children := [];
      ghost var elements := [];
      for i := 0 to |items|
        invariant Rendered(children, elements, items, selected, i)
      {
        hide Rendered;
        var element := RenderNext(items, selected, i, elements);
        elements := elements + [element];
      }
      assert items[..|items|] == items;
      NothingThere(items, selected);
      PlacedShows(items, selected, map[], elements);
      hide Placed, Rendered, FullRender, Shows;
      if ItemsOk(items) {
        RenderedIsValid(items, selected, children, elements);
      }
    }

    /** What one pass of the loop does with its element and its cursor. */
    method Place(item: PedidoItem, isSelected: bool, existing: Option<Node>, cursor: Option<Node>, ghost done: seq<Node>, ghost rest: seq<Node>)
      returns (element: Node, next: Option<Node>)
      requires children == done + rest && NoDuplicates(children) && cursor == Head(rest)
      requires existing.Some? ==> existing.value in rest && existing.value.kind.ItemElement?
      modifies this, if existing.Some? then {existing.value} else {}
      ensures if existing.Some? then element == existing.value else fresh(element)
      ensures element.kind.ItemElement?
      ensures element.View() == if existing.Some? then Refreshed(old(existing.value.View()), item, isSelected) else ShowItem(item, isSelected)
      ensures var after := if existing.Some? then Removed(rest, element) else rest;
              children == done + [element] + after && NoDuplicates(children) && next == Head(after)
    {
      hide Removed, InsertBefore, ShowItem, Refreshed, NoDuplicates, Plain;
      next := cursor;
      if existing.None? {
        element := new Node.RenderPedidoItem(item, isSelected);
        NewInFront(done, rest, element);
      } else {
        element := existing.value;
        element.Update(item, isSelected);
        if element != rest[0] {
          MoveExisting(done, rest, element);
        } else {
          KeepFirst(done, rest);
        }
      }
      if Some(element) != cursor {
        children := InsertBefore(children, element, cursor);
      } else {
        next := NextSibling(children, element);
      }
    }

    /** The empty-list copy goes when there are items to show. */
    method RemoveEmptyCopy()
      requires Valid()
      modifies this
      ensures Valid() && forall n :: n in children <==> n in old(children) && !n.kind.EmptyCopy?
      ensures OfKind(children, true) == OfKind(old(children), true)
    {
      for i := 0 to |children|
        invariant children == old(children)
        invariant forall j :: 0 <= j < i ==> !children[j].kind.EmptyCopy?
      {
        if children[i].kind.EmptyCopy? {
          TextsStay(children, children[i]);
          RemovedMembers(children, children[i]);
          children := Removed(children, children[i]);
          return;
        }
      }
    }

    /** The Map from id to element. */
    method ExistingById() returns (existing: map<string, Node>)
      requires Valid()
      ensures ById(existing, children)
    {
      existing := map[];
      for i := 0 to |children|
        invariant forall id :: id in existing ==> existing[id] in children && existing[id].kind.ItemElement? && existing[id].itemId == id
        invariant forall j :: 0 <= j < i && children[j].kind.ItemElement? ==>
                    children[j].itemId in existing && existing[children[j].itemId] == children[j]
      {
        assert children[i] in children;
        assert forall j :: 0 <= j < i ==> children[j] in children;
        if children[i].kind.ItemElement? && children[i].itemId != "" {
          existing := existing[children[i].itemId := children[i]];
        }
      }
    }

    /** Removing what was not reused leaves the text nodes after the items. */
    method RemoveStale(stale: set<Node>, ghost done: seq<Node>, ghost rest: seq<Node>)
      requires children == done + rest && NoDuplicates(children)
      requires forall n :: n in stale ==> n in rest && n.kind.ItemElement?
      requires forall n :: n in rest ==> (n.kind.TextNode? || n in stale)
      modifies this
      ensures children == done + OfKind(rest, true) && NoDuplicates(children)
    {
      var left, after := stale, rest;
      while left != {}
        invariant children == done + after && NoDuplicates(children) && left <= stale
        invariant forall n :: n in left ==> n in after
        invariant forall n :: n in after ==> (n.kind.TextNode? || n in left)
        invariant OfKind(after, true) == OfKind(rest, true)
      {
        var n :| n in left;
        StaleOut(done, after, n);
        TextsStay(after, n);
        children := Removed(children, n);
        after := Removed(after, n);
        left := left - {n};
      }
      AllOfKind(after, true);
    }

    /** One pass of the loop. */
    method PlaceNext(items: seq<PedidoItem>, selected: Option<string>, existing: map<string, Node>, cursor: Option<Node>,
                     i: nat, ghost was: Before, ghost done: seq<Node>, ghost rest: seq<Node>)
      returns (later: map<string, Node>, next: Option<Node>, ghost placed: Node, ghost after: seq<Node>)
      requires ItemsOk(items) && i < |items| && children == done + rest && cursor == Head(rest)
      requires Midway(items, selected, i, existing, was, done, rest)
      modifies this, was.start
      ensures children == done + [placed] + after && next == Head(after)
      ensures Midway(items, selected, i + 1, later, was, done + [placed], after)
    {
      hide ShowItem, Refreshed, NoDuplicates, Removed, OfKind;
      var item := items[i];
      var element: Option<Node> := None;
      later, after := existing, rest;
      if item.itemId in existing {
        element := Some(existing[item.itemId]);
        later := existing - {item.itemId};
        TakenOut(done, rest, element.value);
        after := Removed(rest, element.value);
      }
      assert ById(later, after);
      hide Placed;
      placed, next := Place(item, Some(item.itemId) == selected, element, cursor, done, rest);
      OneMorePlaced(done, placed, items, selected, was.shown, i);
    }

    /** The loop over the items: every element in its place, the Map left with what was not reused. */
    method PlaceAll(items: seq<PedidoItem>, selected: Option<string>, found: map<string, Node>, ghost was: Before)
      returns (existing: map<string, Node>, ghost done: seq<Node>, ghost rest: seq<Node>)
      requires Valid() && ItemsOk(items) && found == was.found && Prepared(children, was)
      modifies this, was.start
      ensures children == done + rest && Midway(items, selected, |items|, existing, was, done, rest)
    {
      existing, done, rest := found, [], children;
      var cursor := Head(children);
      assert [] + children == children;
      for i := 0 to |items|
        invariant children == done + rest && cursor == Head(rest)
        invariant Midway(items, selected, i, existing, was, done, rest)
      {
        hide ItemsOk, Midway;
        ghost var placed;
        existing, cursor, placed, rest := PlaceNext(items, selected, existing, cursor, i, was, done, rest);
        done := done + [placed];
      }
    }

    /** The pass over a list with items. */
    method ReconcileItems(items: seq<PedidoItem>, selected: Option<string>, found: map<string, Node>, ghost was: Before)
      requires Valid() && ItemsOk(items) && found == was.found && Prepared(children, was)
      modifies this, was.start
      ensures Listed(children, items, selected, was)
    {
      var existing, done, rest := PlaceAll(items, selected, found, was);
      assert items[..|items|] == items;
      RestIsKnown(items, selected, existing, was, done, rest);
      hide Midway, ItemsOk;
      RemoveStale(existing.Values, done, rest);
    }

    /** Without items there is the empty-list copy and no element. */
    method ShowEmptyCopy()
      requires Valid()
      modifies this
      ensures Valid() && Shows(OfKind(children, false), [], None)
    {
      if |OfKind(children, false)| != 1 || !(exists n :: n in children && n.kind.EmptyCopy?) {
        var copy := new Node.Other(EmptyCopy);
        children := [copy];
        AllOfKind(children, false);
        OneNode(copy);
      } else {
        OnlyElement(children);
      }
    }

    /** `reconcilePedidoList`. The list ends as a full rendering would show it exactly if no surviving
        element keeps an outdated content behind an equal key; so it does for texts without the delimiter. */
    method ReconcilePedidoList(items: seq<PedidoItem>, selected: Option<string>, ghost was: Before)
      requires Valid() && ItemsOk(items)
      requires was.start == children && ById(was.found, children) && was.shown == ViewsOf(was.found)
      modifies this, children
      ensures Valid()
      ensures items == [] ==> Shows(OfKind(children, false), [], None)
      ensures items != [] ==> Listed(children, items, selected, was)
      ensures items != [] ==> (Shows(OfKind(children, false), items, selected) <==> NothingStale(was.shown, items, selected))
      ensures items != [] && FromItems(was.shown) && AllPlain(items) ==> ShowsItems(children)
      ensures items != [] && FromItems(was.shown) && AllPlain(items) && (forall i :: 0 <= i < |items| ==> NoDelimiter(items[i])) ==>
                Shows(OfKind(children, false), items, selected)
    {
      hide ShowItem, Refreshed, Join, Listed, NoDuplicates, NothingStale, Shows, OfKind, FromItems, ShowsItems, AllPlain, NoDelimiter;
      if items == [] {
        ShowEmptyCopy();
        return;
      }
      RemoveEmptyCopy();
      var existing := ExistingById();
      SameMap(existing, was.found, was.start);
      ReconcileItems(items, selected, existing, was);
      ListedIsValid(items, selected, was, children);
      if FromItems(was.shown) && AllPlain(items) {
        ListedShowsItems(items, selected, was, children);
        ReconciliationIsExact(items, selected);
      }
    }
  }
}
