/** SQL statement text with numbered placeholders (`$1`, `$2`, ...) and the
    parameter arrays that go with it.

    A statement is described twice. Its TEMPLATE is a sequence of pieces, literal
    text or a placeholder slot `$n`; rendering the template gives the exact text the
    code sends to the driver. Its INLINE form puts each parameter value where its
    placeholder stands. A text and a parameter array line up when binding every slot
    `$n` to `params[n - 1]` turns the template into the inline form and the slots are
    `$1 .. $|params|`, each once, in textual order. */
module SqlText {
  import opened Common
  import opened JsValues

  /** A plain object (a database row, an insert or update payload), as its
      key/value pairs in `Object.keys` order. */
  type Row = seq<(string, Value)>

  /** `Object.keys(row)`. */
  function Keys(row: Row): (ks: seq<string>)
    ensures |ks| == |row|
  {
    if row == [] then [] else [row[0].0] + Keys(row[1..])
  }

  lemma {:induction false} KeysAt(row: Row, i: nat)
    requires i < |row|
    ensures Keys(row)[i] == row[i].0
  {
    if i > 0 {
      KeysAt(row[1..], i - 1);
    }
  }

  /** `Object.values(row)`. */
  function Values(row: Row): (vs: seq<Value>)
    ensures |vs| == |row|
  {
    if row == [] then [] else [row[0].1] + Values(row[1..])
  }

  lemma {:induction false} ValuesAt(row: Row, i: nat)
    requires i < |row|
    ensures Values(row)[i] == row[i].1
  {
    if i > 0 {
      ValuesAt(row[1..], i - 1);
    }
  }

  /** `parts.join(sep)`. */
  function Join(parts: seq<string>, sep: string): string {
    if parts == [] then ""
    else if |parts| == 1 then parts[0]
    else Join(parts[..|parts| - 1], sep) + sep + parts[|parts| - 1]
  }

  datatype Piece = Text(s: string) | Slot(n: nat)

  /** A piece of the executed statement: literal text, a parameter value, or a
      placeholder that has no parameter. */
  datatype Bound = Lit(s: string) | Arg(v: Value) | Missing(n: nat)

  function RenderPiece(p: Piece): string {
    match p
    case Text(s) => s
    case Slot(n) => "$" + NatStr(n)
  }

  /** The SQL text of a template. */
  function Render(ps: seq<Piece>): string {
    if ps == [] then "" else RenderPiece(ps[0]) + Render(ps[1..])
  }

  function BindPiece(p: Piece, params: seq<Value>): Bound {
    match p
    case Text(s) => Lit(s)
    case Slot(n) => if 1 <= n <= |params| then Arg(params[n - 1]) else Missing(n)
  }

  /** What the database executes: each slot `$n` replaced by `params[n - 1]`. */
  function Bind(ps: seq<Piece>, params: seq<Value>): seq<Bound> {
    if ps == [] then [] else [BindPiece(ps[0], params)] + Bind(ps[1..], params)
  }

  /** Walks a template expecting the placeholders `$next, $next + 1, ...` in textual
      order, and gives the number after the last one, or `None` at the first
      placeholder out of sequence. `Numbered(t, 1) == Some(k + 1)` says that the
      placeholders of `t` are exactly `$1 .. $k`, each once, in this order. */
  function Numbered(t: seq<Piece>, next: nat): Option<nat> {
    if t == [] then Some(next)
    else match t[0]
      case Text(_) => Numbered(t[1..], next)
      case Slot(n) => if n == next then Numbered(t[1..], next + 1) else None
  }

  /** Template `t` with parameters `ps` stands for the statement `inline`: binding each
      `$n` to `ps[n - 1]` gives it, and the placeholders are `$1 .. $|ps|`, each once,
      in textual order. */
  predicate LinesUp(t: seq<Piece>, ps: seq<Value>, inline: seq<Bound>) {
    Bind(t, ps) == inline && Numbered(t, 1) == Some(|ps| + 1)
  }

  /** A template numbered up to `mid` followed by one numbered on from `mid`. */
  lemma {:induction false} NumberedConcat(a: seq<Piece>, b: seq<Piece>, first: nat, mid: nat, last: nat)
    requires Numbered(a, first) == Some(mid) && Numbered(b, mid) == Some(last)
    ensures Numbered(a + b, first) == Some(last)
  {
    if a == [] {
      assert a + b == b;
    } else {
      assert (a + b)[1..] == a[1..] + b;
      assert (a + b)[0] == a[0];
      match a[0]
      case Text(_) => NumberedConcat(a[1..], b, first, mid, last);
      case Slot(n) => NumberedConcat(a[1..], b, first + 1, mid, last);
    }
  }

  /** How many times the placeholder `$k` occurs in a template. */
  function SlotCount(t: seq<Piece>, k: nat): nat {
    if t == [] then 0 else (if t[0] == Slot(k) then 1 else 0) + SlotCount(t[1..], k)
  }

  lemma {:induction false} SlotCountConcat(a: seq<Piece>, b: seq<Piece>, k: nat)
    ensures SlotCount(a + b, k) == SlotCount(a, k) + SlotCount(b, k)
  {
    if a == [] {
      assert a + b == b;
    } else {
      assert (a + b)[1..] == a[1..] + b;
      assert (a + b)[0] == a[0];
      SlotCountConcat(a[1..], b, k);
    }
  }

  /** Placeholders numbered in order from `first` up to `last` use each of
      `$first .. $last-1` exactly once and no other. */
  lemma {:induction false} NumberedSlotCount(t: seq<Piece>, first: nat, last: nat, k: nat)
    requires Numbered(t, first) == Some(last)
    ensures first <= last
    ensures SlotCount(t, k) == if first <= k < last then 1 else 0
  {
    if t != [] {
      match t[0]
      case Text(_) => NumberedSlotCount(t[1..], first, last, k);
      case Slot(n) => NumberedSlotCount(t[1..], first + 1, last, k);
    }
  }

  /** The frame's text adds no placeholder. */
  lemma FramedSlotCount(head: string, mid: seq<Piece>, tail: string, k: nat)
    ensures SlotCount(Framed(head, mid, tail), k) == SlotCount(mid, k)
  {
    NumberedText(head, 0);
    NumberedSlotCount([Text(head)], 0, 0, k);
    NumberedText(tail, 0);
    NumberedSlotCount([Text(tail)], 0, 0, k);
    SlotCountConcat([Text(head)], mid, k);
    SlotCountConcat([Text(head)] + mid, [Text(tail)], k);
  }

  /** A template that lines up with `ps` uses every one of `$1 .. $|ps|` exactly once. */
  lemma LinesUpSlotCount(t: seq<Piece>, ps: seq<Value>, inline: seq<Bound>, k: nat)
    requires LinesUp(t, ps, inline)
    ensures SlotCount(t, k) == if 1 <= k <= |ps| then 1 else 0
  {
    NumberedSlotCount(t, 1, |ps| + 1, k);
  }

  /** Text has no placeholder. */
  lemma NumberedText(s: string, next: nat)
    ensures Numbered([Text(s)], next) == Some(next)
  {
    assert [Text(s)][1..] == [];
  }

  lemma SinglePiece(p: Piece, params: seq<Value>)
    ensures Render([p]) == RenderPiece(p)
    ensures Bind([p], params) == [BindPiece(p, params)]
  {
    assert [p][1..] == [];
    assert [BindPiece(p, params)] + [] == [BindPiece(p, params)];
  }

  lemma {:induction false} RenderConcat(a: seq<Piece>, b: seq<Piece>)
    ensures Render(a + b) == Render(a) + Render(b)
  {
    if a == [] {
      assert a + b == b;
    } else {
      assert (a + b)[1..] == a[1..] + b;
      RenderConcat(a[1..], b);
    }
  }

  lemma {:induction false} BindConcat(a: seq<Piece>, b: seq<Piece>, params: seq<Value>)
    ensures Bind(a + b, params) == Bind(a, params) + Bind(b, params)
  {
    if a == [] {
      assert a + b == b;
    } else {
      assert (a + b)[1..] == a[1..] + b;
      assert (a + b)[0] == a[0];
      BindConcat(a[1..], b, params);
      ConcatAssoc([BindPiece(a[0], params)], Bind(a[1..], params), Bind(b, params));
    }
  }

  lemma BindAppended(whole: seq<Piece>, a: seq<Piece>, b: seq<Piece>, params: seq<Value>, bound: seq<Bound>)
    requires whole == a + b && Bind(b, params) == bound
    ensures Bind(whole, params) == Bind(a, params) + bound
  {
    BindConcat(a, b, params);
  }

  lemma JoinSnoc(parts: seq<string>, sep: string)
    requires |parts| >= 2
    ensures Join(parts, sep) == Join(parts[..|parts| - 1], sep) + sep + parts[|parts| - 1]
  {
  }

  /** A separated list of `prefix $n` items numbered from `first`: the shape of a
      WHERE list, a SET list and a VALUES list. */
  function Items(prefixes: seq<string>, sep: string, first: nat): seq<Piece> {
    if prefixes == [] then []
    else if |prefixes| == 1 then [Text(prefixes[0]), Slot(first)]
    else
      var n := |prefixes| - 1;
      Items(prefixes[..n], sep, first) + [Text(sep), Text(prefixes[n]), Slot(first + n)]
  }

  /** The same list with the values written in place of the placeholders. */
  function InlineItems(prefixes: seq<string>, values: seq<Value>, sep: string): seq<Bound>
    requires |prefixes| == |values|
  {
    if prefixes == [] then []
    else if |prefixes| == 1 then [Lit(prefixes[0]), Arg(values[0])]
    else
      var n := |prefixes| - 1;
      InlineItems(prefixes[..n], values[..n], sep) + [Lit(sep), Lit(prefixes[n]), Arg(values[n])]
  }

  lemma ItemsSnoc(prefixes: seq<string>, sep: string, first: nat)
    requires |prefixes| >= 2
    ensures var n := |prefixes| - 1;
      Items(prefixes, sep, first)
        == Items(prefixes[..n], sep, first) + [Text(sep), Text(prefixes[n]), Slot(first + n)]
  {
  }

  lemma InlineItemsSnoc(prefixes: seq<string>, values: seq<Value>, sep: string)
    requires |prefixes| == |values| >= 2
    ensures InlineItems(prefixes, values, sep)
         == InlineItems(prefixes[..|prefixes| - 1], values[..|prefixes| - 1], sep)
            + [Lit(sep), Lit(prefixes[|prefixes| - 1]), Arg(values[|prefixes| - 1])]
  {
  }

  /** The text of one item: its prefix, then `$k`. */
  function ItemText(prefix: string, k: nat): string {
    prefix + "$" + NatStr(k)
  }

  /** The texts of the items numbered from `first`, one per prefix. */
  function ItemTexts(prefixes: seq<string>, first: nat): (r: seq<string>)
    ensures |r| == |prefixes|
  {
    if prefixes == [] then []
    else
      var n := |prefixes| - 1;
      ItemTexts(prefixes[..n], first) + [ItemText(prefixes[n], first + n)]
  }

  /** The text of item i is `prefixes[i]` followed by `$(first + i)`. */
  lemma {:induction false} ItemTextsAt(prefixes: seq<string>, first: nat, i: nat)
    requires i < |prefixes|
    ensures ItemTexts(prefixes, first)[i] == ItemText(prefixes[i], first + i)
  {
    var n := |prefixes| - 1;
    if i < n {
      ItemTextsAt(prefixes[..n], first, i);
    }
  }

  /** Joining one more item text onto the joined texts of the items before it. */
  lemma JoinItemTextsSnoc(prefixes: seq<string>, sep: string, first: nat, i: nat)
    requires i < |prefixes|
    ensures Join(ItemTexts(prefixes[..i + 1], first), sep)
         == if i == 0 then ItemText(prefixes[i], first + i)
            else Join(ItemTexts(prefixes[..i], first), sep) + sep + ItemText(prefixes[i], first + i)
  {
    var p := prefixes[..i + 1];
    assert p[..i] == prefixes[..i] && p[i] == prefixes[i];
    var texts := ItemTexts(p, first);
    assert texts == ItemTexts(prefixes[..i], first) + [ItemText(prefixes[i], first + i)];
    if i == 0 {
      assert texts == [ItemText(prefixes[i], first + i)];
    } else {
      JoinSnoc(texts, sep);
      assert texts[..i] == ItemTexts(prefixes[..i], first);
    }
  }

  /** One loop step of building a separated list: the clause so far, then the
      separator (not before the first item) and the next item. */
  lemma JoinNextItem(prefixes: seq<string>, sep: string, first: nat, i: nat, clause: string, item: string)
    requires i < |prefixes|
    requires clause == Join(ItemTexts(prefixes[..i], first), sep)
    requires item == ItemText(prefixes[i], first + i)
    ensures (if i == 0 then item else clause + sep + item) == Join(ItemTexts(prefixes[..i + 1], first), sep)
  {
    JoinItemTextsSnoc(prefixes, sep, first, i);
  }

  /** The first item, `prefix $k`, on its own. */
  lemma FirstItemRender(prefix: string, k: nat)
    ensures Render([Text(prefix), Slot(k)]) == ItemText(prefix, k)
  {
    var ps := [Text(prefix), Slot(k)];
    var slot := "$" + NatStr(k);
    assert ps[1..] == [Slot(k)] && ps[1..][1..] == [];
    assert Render([Slot(k)]) == slot + "";
    assert slot + "" == slot;
    assert Render(ps) == prefix + slot;
    ConcatAssoc(prefix, "$", NatStr(k));
  }

  lemma FirstItemNumbered(prefix: string, k: nat)
    ensures Numbered([Text(prefix), Slot(k)], k) == Some(k + 1)
  {
    var ps := [Text(prefix), Slot(k)];
    assert ps[1..] == [Slot(k)] && ps[1..][1..] == [];
    assert Numbered([Slot(k)], k) == Numbered([], k + 1);
  }

  lemma FirstItemBind(prefix: string, k: nat, params: seq<Value>)
    requires 1 <= k <= |params|
    ensures Bind([Text(prefix), Slot(k)], params) == [Lit(prefix), Arg(params[k - 1])]
  {
    var ps := [Text(prefix), Slot(k)];
    assert ps[1..] == [Slot(k)];
    SinglePiece(Slot(k), params);
  }

  /** A later item, `sep prefix $k`, on its own. */
  lemma NextItemRender(sep: string, prefix: string, k: nat)
    ensures Render([Text(sep), Text(prefix), Slot(k)]) == sep + ItemText(prefix, k)
  {
    assert [Text(sep), Text(prefix), Slot(k)][1..] == [Text(prefix), Slot(k)];
    FirstItemRender(prefix, k);
  }

  lemma NextItemNumbered(sep: string, prefix: string, k: nat)
    ensures Numbered([Text(sep), Text(prefix), Slot(k)], k) == Some(k + 1)
  {
    assert [Text(sep), Text(prefix), Slot(k)][1..] == [Text(prefix), Slot(k)];
    FirstItemNumbered(prefix, k);
  }

  lemma NextItemBind(sep: string, prefix: string, k: nat, params: seq<Value>)
    requires 1 <= k <= |params|
    ensures Bind([Text(sep), Text(prefix), Slot(k)], params) == [Lit(sep), Lit(prefix), Arg(params[k - 1])]
  {
    assert [Text(sep), Text(prefix), Slot(k)][1..] == [Text(prefix), Slot(k)];
    FirstItemBind(prefix, k, params);
  }

  lemma ItemsOne(prefixes: seq<string>, sep: string, first: nat)
    requires |prefixes| == 1
    ensures Items(prefixes, sep, first) == [Text(prefixes[0]), Slot(first)]
  {
  }

  lemma BindItemsOne(prefixes: seq<string>, values: seq<Value>, sep: string,
                     first: nat, params: seq<Value>)
    requires |prefixes| == |values| == 1
    requires 1 <= first && first <= |params| && params[first - 1] == values[0]
    ensures Bind(Items(prefixes, sep, first), params) == InlineItems(prefixes, values, sep)
  {
    FirstItemBind(prefixes[0], first, params);
    ItemsOne(prefixes, sep, first);
  }

  /** One more item appends its bound form to what the items before it bind to. */
  lemma BindItemsSnoc(prefixes: seq<string>, sep: string, first: nat, params: seq<Value>)
    requires |prefixes| >= 2 && 1 <= first && first + |prefixes| - 1 <= |params|
    ensures Bind(Items(prefixes, sep, first), params)
         == Bind(Items(prefixes[..|prefixes| - 1], sep, first), params)
            + [Lit(sep), Lit(prefixes[|prefixes| - 1]), Arg(params[first + |prefixes| - 2])]
  {
    var n := |prefixes| - 1;
    var tail := [Text(sep), Text(prefixes[n]), Slot(first + n)];
    NextItemBind(sep, prefixes[n], first + n, params);
    assert Bind(tail, params) == [Lit(sep), Lit(prefixes[n]), Arg(params[first + |prefixes| - 2])];
    ItemsSnoc(prefixes, sep, first);
    BindAppended(Items(prefixes, sep, first), Items(prefixes[..n], sep, first), tail, params,
                 [Lit(sep), Lit(prefixes[n]), Arg(params[first + |prefixes| - 2])]);
  }

  lemma BindItemsStep(prefixes: seq<string>, values: seq<Value>, sep: string,
                      first: nat, params: seq<Value>)
    requires |prefixes| == |values| >= 2
    requires 1 <= first && first + |prefixes| - 1 <= |params|
    requires params[first + |prefixes| - 2] == values[|prefixes| - 1]
    requires Bind(Items(prefixes[..|prefixes| - 1], sep, first), params)
          == InlineItems(prefixes[..|prefixes| - 1], values[..|prefixes| - 1], sep)
    ensures Bind(Items(prefixes, sep, first), params) == InlineItems(prefixes, values, sep)
  {
    BindItemsSnoc(prefixes, sep, first, params);
    InlineItemsSnoc(prefixes, values, sep);
  }

  /** The items bind to the inline list when the parameters from position `first`
      on are the item values, in order. */
  lemma {:induction false} BindItems(prefixes: seq<string>, values: seq<Value>, sep: string,
                                     first: nat, params: seq<Value>)
    requires |prefixes| == |values|
    requires 1 <= first && first - 1 + |values| <= |params|
    requires params[first - 1 .. first - 1 + |values|] == values
    ensures Bind(Items(prefixes, sep, first), params) == InlineItems(prefixes, values, sep)
  {
    if prefixes == [] {
      assert Items(prefixes, sep, first) == [] && InlineItems(prefixes, values, sep) == [];
    } else if |prefixes| == 1 {
      SliceAt(params, first - 1, values, 0);
      BindItemsOne(prefixes, values, sep, first, params);
    } else {
      var n := |prefixes| - 1;
      SliceAt(params, first - 1, values, n);
      assert params[first + |prefixes| - 2] == values[|prefixes| - 1];
      BindItems(prefixes[..n], values[..n], sep, first, params);
      BindItemsStep(prefixes, values, sep, first, params);
    }
  }

  /** The items use the placeholders `$first .. $(first + |prefixes| - 1)`, each once,
      in order. */
  lemma {:induction false} ItemsNumbered(prefixes: seq<string>, sep: string, first: nat)
    ensures Numbered(Items(prefixes, sep, first), first) == Some(first + |prefixes|)
  {
    if prefixes == [] {
      assert Items(prefixes, sep, first) == [];
    } else if |prefixes| == 1 {
      FirstItemNumbered(prefixes[0], first);
      ItemsOne(prefixes, sep, first);
    } else {
      var n := |prefixes| - 1;
      ItemsNumbered(prefixes[..n], sep, first);
      NextItemNumbered(sep, prefixes[n], first + n);
      ItemsSnoc(prefixes, sep, first);
      NumberedConcat(Items(prefixes[..n], sep, first), [Text(sep), Text(prefixes[n]), Slot(first + n)],
                     first, first + n, first + n + 1);
    }
  }

  /** One more item renders as the separator and its text after the items before it. */
  lemma RenderItemsSnoc(prefixes: seq<string>, sep: string, first: nat)
    requires |prefixes| >= 2
    ensures var n := |prefixes| - 1;
      Render(Items(prefixes, sep, first))
        == Render(Items(prefixes[..n], sep, first)) + (sep + ItemText(prefixes[n], first + n))
  {
    var n := |prefixes| - 1;
    NextItemRender(sep, prefixes[n], first + n);
    ItemsSnoc(prefixes, sep, first);
    RenderConcat(Items(prefixes[..n], sep, first), [Text(sep), Text(prefixes[n]), Slot(first + n)]);
  }

  /** The joined texts of a list of at least two items: the texts before the last,
      the separator, the last text. */
  lemma JoinItemTextsSnoc2(prefixes: seq<string>, sep: string, first: nat)
    requires |prefixes| >= 2
    ensures var n := |prefixes| - 1;
      Join(ItemTexts(prefixes, first), sep)
        == Join(ItemTexts(prefixes[..n], first), sep) + (sep + ItemText(prefixes[n], first + n))
  {
    var n := |prefixes| - 1;
    var texts := ItemTexts(prefixes, first);
    assert texts == ItemTexts(prefixes[..n], first) + [ItemText(prefixes[n], first + n)];
    assert texts[..n] == ItemTexts(prefixes[..n], first);
    JoinSnoc(texts, sep);
    ConcatAssoc(Join(texts[..n], sep), sep, texts[n]);
  }

  lemma RenderItemsOne(prefixes: seq<string>, sep: string, first: nat)
    requires |prefixes| == 1
    ensures Render(Items(prefixes, sep, first)) == Join(ItemTexts(prefixes, first), sep)
  {
    FirstItemRender(prefixes[0], first);
    ItemsOne(prefixes, sep, first);
  }

  lemma RenderItemsStep(prefixes: seq<string>, sep: string, first: nat)
    requires |prefixes| >= 2
    requires Render(Items(prefixes[..|prefixes| - 1], sep, first))
          == Join(ItemTexts(prefixes[..|prefixes| - 1], first), sep)
    ensures Render(Items(prefixes, sep, first)) == Join(ItemTexts(prefixes, first), sep)
  {
    RenderItemsSnoc(prefixes, sep, first);
    JoinItemTextsSnoc2(prefixes, sep, first);
  }

  /** The rendered items are the `prefix$n` strings joined by the separator, which is
      how the code writes them (`map(...).join(sep)`). */
  lemma {:induction false} RenderItems(prefixes: seq<string>, sep: string, first: nat)
    ensures Render(Items(prefixes, sep, first)) == Join(ItemTexts(prefixes, first), sep)
  {
    if prefixes == [] {
      assert Items(prefixes, sep, first) == [];
    } else if |prefixes| == 1 {
      RenderItemsOne(prefixes, sep, first);
    } else {
      RenderItems(prefixes[..|prefixes| - 1], sep, first);
      RenderItemsStep(prefixes, sep, first);
    }
  }

  /** The items `key = ` of a SET list or of an equality filter. */
  function KeyPrefixes(row: Row): (r: seq<string>)
    ensures |r| == |row|
  {
    if row == [] then [] else [row[0].0 + " = "] + KeyPrefixes(row[1..])
  }

  lemma {:induction false} KeyPrefixesAt(row: Row, i: nat)
    requires i < |row|
    ensures KeyPrefixes(row)[i] == row[i].0 + " = "
  {
    if i > 0 {
      KeyPrefixesAt(row[1..], i - 1);
    }
  }

  /** The VALUES items of an insert: the placeholder alone. */
  function Blanks(n: nat): (r: seq<string>)
    ensures |r| == n
  {
    if n == 0 then [] else Blanks(n - 1) + [""]
  }

  /** Literal text around a middle part. */
  function Framed(head: string, mid: seq<Piece>, tail: string): seq<Piece> {
    [Text(head)] + mid + [Text(tail)]
  }

  function FramedInline(head: string, mid: seq<Bound>, tail: string): seq<Bound> {
    [Lit(head)] + mid + [Lit(tail)]
  }

  lemma RenderFramed(head: string, mid: seq<Piece>, tail: string)
    ensures Render(Framed(head, mid, tail)) == head + Render(mid) + tail
  {
    SinglePiece(Text(head), []);
    SinglePiece(Text(tail), []);
    RenderConcat([Text(head)], mid);
    RenderConcat([Text(head)] + mid, [Text(tail)]);
  }

  lemma BindFramed(head: string, mid: seq<Piece>, tail: string, params: seq<Value>)
    ensures Bind(Framed(head, mid, tail), params) == FramedInline(head, Bind(mid, params), tail)
  {
    SinglePiece(Text(head), params);
    SinglePiece(Text(tail), params);
    BindConcat([Text(head)], mid, params);
    BindConcat([Text(head)] + mid, [Text(tail)], params);
  }

  lemma NumberedFramed(head: string, mid: seq<Piece>, tail: string, first: nat, last: nat)
    requires Numbered(mid, first) == Some(last)
    ensures Numbered(Framed(head, mid, tail), first) == Some(last)
  {
    NumberedText(head, first);
    NumberedConcat([Text(head)], mid, first, first, last);
    NumberedText(tail, last);
    NumberedConcat([Text(head)] + mid, [Text(tail)], first, last, last);
  }

  /** Two parts numbered one after the other between two texts. */
  lemma NumberedFramedConcat(head: string, a: seq<Piece>, b: seq<Piece>, tail: string,
                             first: nat, mid: nat, last: nat)
    requires Numbered(a, first) == Some(mid) && Numbered(b, mid) == Some(last)
    ensures Numbered(Framed(head, a + b, tail), first) == Some(last)
  {
    NumberedConcat(a, b, first, mid, last);
    NumberedFramed(head, a + b, tail, first, last);
  }

  /** Two bound parts between two texts: the shape of an UPDATE with its SET list and
      its WHERE list. */
  lemma BindFramedConcat(head: string, a: seq<Piece>, b: seq<Piece>, tail: string, params: seq<Value>,
                         boundA: seq<Bound>, boundB: seq<Bound>)
    requires Bind(a, params) == boundA && Bind(b, params) == boundB
    ensures Bind(Framed(head, a + b, tail), params) == FramedInline(head, boundA + boundB, tail)
  {
    BindConcat(a, b, params);
    BindFramed(head, a + b, tail, params);
  }

  datatype Statement = Statement(text: string, params: seq<Value>)

  /** A JavaScript `Error`, by its message. */
  datatype DbError = DbError(message: string)

  /** What the code raises when no connection string is configured. */
  const NotConfigured := DbError("Database not configured")

  /** The database driver: what executing a statement yields. */
  type Driver = Statement -> Result<seq<Row>, DbError>

  datatype Payload = AllRows(rows: seq<Row>) | FirstRow(row: Row)

  /** The `{ data, error }` object every query helper resolves to. */
  datatype Response = Response(data: Option<Payload>, error: Option<DbError>)
}
