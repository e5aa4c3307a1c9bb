/**
 * The reply keyboard of the main menu (`get_main_keyboard`) and the lookup of a
 * typed label among the active buttons (the query in `handle_menu_click`).
 */
module Menu {
  import opened Models
  import opened Database

  type Row = seq<string>
  type Layout = seq<Row>

  // ---------------------------------------------------------------- the query: active buttons by order

  predicate SortedByOrder(bs: seq<Button>) {
    forall i, j :: 0 <= i < j < |bs| ==> bs[i].order <= bs[j].order
  }

  /** Puts `b` in front of the first button whose order is not smaller, so equal orders keep their relative order. */
  function Insert(b: Button, bs: seq<Button>): (r: seq<Button>)
    ensures multiset(r) == multiset(bs) + multiset{b}
    ensures |r| == |bs| + 1
  {
    if |bs| == 0 || b.order <= bs[0].order then [b] + bs
    else
      assert bs == [bs[0]] + bs[1..];
      [bs[0]] + Insert(b, bs[1..])
  }

  lemma {:induction false} InsertSorted(b: Button, bs: seq<Button>)
    requires SortedByOrder(bs)
    ensures SortedByOrder(Insert(b, bs))
    ensures forall k :: 0 <= k < |Insert(b, bs)| ==>
      Insert(b, bs)[k].order >= (if |bs| > 0 && bs[0].order < b.order then bs[0].order else b.order)
  {
    if |bs| > 0 && b.order > bs[0].order {
      InsertSorted(b, bs[1..]);
      var rest := Insert(b, bs[1..]);
      assert Insert(b, bs) == [bs[0]] + rest;
      if |bs| > 1 {
        assert bs[0].order <= bs[1].order;
      }
    }
  }

  /** `ORDER BY order`, stable: buttons with equal order stay in table order. */
  function SortByOrder(bs: seq<Button>): (r: seq<Button>)
    ensures SortedByOrder(r)
    ensures multiset(r) == multiset(bs)
    ensures |r| == |bs|
  {
    if |bs| == 0 then []
    else
      assert bs == [bs[0]] + bs[1..];
      InsertSorted(bs[0], SortByOrder(bs[1..]));
      Insert(bs[0], SortByOrder(bs[1..]))
  }

  /** `filter(Button.is_active == True)`, in table order. */
  function Active(bs: seq<Button>): (r: seq<Button>)
    ensures forall i :: 0 <= i < |r| ==> r[i].isActive
    ensures |r| == 0 <==> forall i :: 0 <= i < |bs| ==> !bs[i].isActive
    ensures forall b :: multiset(r)[b] == if b.isActive then multiset(bs)[b] else 0
  {
    if |bs| == 0 then []
    else
      var rest := Active(bs[1..]);
      assert bs == [bs[0]] + bs[1..];
      assert multiset(bs) == multiset{bs[0]} + multiset(bs[1..]);
      if bs[0].isActive then
        assert multiset([bs[0]] + rest) == multiset{bs[0]} + multiset(rest);
        [bs[0]] + rest
      else rest
  }

  /** The rows `get_main_keyboard` reads: the active buttons in ascending order. */
  function ActiveByOrder(bs: seq<Button>): (r: seq<Button>)
    ensures SortedByOrder(r)
    ensures multiset(r) == multiset(Active(bs))
    ensures forall i :: 0 <= i < |r| ==> r[i].isActive && r[i] in bs
    ensures |r| == 0 <==> forall i :: 0 <= i < |bs| ==> !bs[i].isActive
    ensures forall b :: multiset(r)[b] == if b.isActive then multiset(bs)[b] else 0
  {
    var a := Active(bs);
    var r := SortByOrder(a);
    assert forall i :: 0 <= i < |r| ==> r[i] in multiset(a);
    r
  }

  function Labels(bs: seq<Button>): (ls: seq<string>)
    ensures |ls| == |bs|
    ensures forall i :: 0 <= i < |bs| ==> ls[i] == bs[i].text
  {
    seq(|bs|, i requires 0 <= i < |bs| => bs[i].text)
  }

  // ---------------------------------------------------------------- the layout

  function Flatten(rows: Layout): seq<string> {
    if |rows| == 0 then [] else rows[0] + Flatten(rows[1..])
  }

  /** Every row holds one or two labels, and only the last row may hold one. */
  predicate RowsShaped(rows: Layout) {
    && (forall i :: 0 <= i < |rows| ==> 1 <= |rows[i]| <= 2)
    && (forall i :: 0 <= i < |rows| - 1 ==> |rows[i]| == 2)
  }

  /** The labels cut into rows of two, the last row holding what is left over. */
  function Chunk(ls: seq<string>): Layout {
    if |ls| == 0 then []
    else if |ls| <= 2 then [ls]
    else [ls[..2]] + Chunk(ls[2..])
  }

  lemma {:induction false} ChunkFlatten(ls: seq<string>)
    ensures Flatten(Chunk(ls)) == ls
  {
    if |ls| > 2 {
      ChunkFlatten(ls[2..]);
      assert ls == ls[..2] + ls[2..];
    }
  }

  lemma {:induction false} ChunkShape(ls: seq<string>)
    ensures RowsShaped(Chunk(ls))
    ensures |Chunk(ls)| == (|ls| + 1) / 2
  {
    if |ls| > 2 {
      ChunkShape(ls[2..]);
    }
  }

  /** Cutting after an even number of labels splits the layout there. */
  lemma {:induction false} ChunkAppend(s: seq<string>, t: seq<string>)
    requires |s| % 2 == 0
    ensures Chunk(s + t) == Chunk(s) + Chunk(t)
  {
    if |s| == 0 {
      assert s + t == t;
    } else {
      assert (s + t)[..2] == s[..2];
      assert (s + t)[2..] == s[2..] + t;
      ChunkAppend(s[2..], t);
      if |s| == 2 {
        assert s[2..] == [] && s[..2] == s;
        if |t| == 0 {
          assert s + t == s;
        }
      }
    }
  }

  /** Closing a full row after an even number of labels adds that row to the layout. */
  lemma ChunkClose(ls: seq<string>, j: nat)
    requires j % 2 == 0 && j + 2 <= |ls|
    ensures Chunk(ls[..j + 2]) == Chunk(ls[..j]) + [ls[j..j + 2]]
  {
    assert ls[..j + 2] == ls[..j] + ls[j..j + 2];
    ChunkAppend(ls[..j], ls[j..j + 2]);
  }

  /** A single label left over after an even number of labels forms the last row. */
  lemma ChunkLast(ls: seq<string>, j: nat)
    requires j % 2 == 0 && j + 1 == |ls|
    ensures Chunk(ls) == Chunk(ls[..j]) + [ls[j..]]
  {
    assert ls == ls[..j] + ls[j..];
    ChunkAppend(ls[..j], ls[j..]);
  }

  /** The keyboard `get_main_keyboard` returns for the stored buttons; None when no button is active. */
  function MainKeyboardOf(db: Db): (kb: Option<Layout>)
    ensures kb.None? <==> forall i :: 0 <= i < |db.buttons| ==> !db.buttons[i].isActive
    ensures kb.Some? ==> Flatten(kb.value) == Labels(ActiveByOrder(db.buttons)) && RowsShaped(kb.value)
  {
    var buttons := ActiveByOrder(db.buttons);
    if |buttons| == 0 then None
    else
      ChunkFlatten(Labels(buttons));
      ChunkShape(Labels(buttons));
      Some(Chunk(Labels(buttons)))
  }

  /** One turn of the loop of `get_main_keyboard`: the label joins the open row, and a full row is closed. */
  lemma LayoutStep(ls: seq<string>, i: nat, rows: Layout, row: Row)
    requires i < |ls| && |row| == i % 2
    requires row == ls[i - |row|..i] && rows == Chunk(ls[..i - |row|])
    ensures |row| == 1 ==> rows + [row + [ls[i]]] == Chunk(ls[..i + 1])
    ensures |row| == 0 ==> [ls[i]] == ls[i..i + 1] && rows == Chunk(ls[..i])
  {
    if |row| == 1 {
      assert row + [ls[i]] == ls[i - 1..i + 1];
      ChunkClose(ls, i - 1);
    }
  }

  /**
   * The loop of `get_main_keyboard`: appends each label to the current row and
   * closes the row once it holds two; a last, shorter row is closed at the end.
   */
  method LayoutRows(buttons: seq<Button>) returns (rows: Layout)
    ensures rows == Chunk(Labels(buttons))
  {
    ghost var ls := Labels(buttons);
    rows := [];
    var row: Row := [];
    for i := 0 to |buttons|
      invariant |row| == i % 2
      invariant row == ls[i - |row|..i]
      invariant rows == Chunk(ls[..i - |row|])
    {
      LayoutStep(ls, i, rows, row);
      row := row + [buttons[i].text];
      if |row| == 2 {
        rows := rows + [row];
        row := [];
      }
    }
    if |row| > 0 {
      assert row == ls[|ls| - 1..];
      ChunkLast(ls, |ls| - 1);
      rows := rows + [row];
    } else {
      assert ls[..|ls|] == ls;
    }
  }

  /** `get_main_keyboard`: None when no button is active, otherwise the active labels in order, two per row. */
  method MainKeyboard(db: Db) returns (kb: Option<Layout>)
    ensures kb == MainKeyboardOf(db)
    ensures kb.None? <==> forall i :: 0 <= i < |db.buttons| ==> !db.buttons[i].isActive
    ensures kb.Some? ==> Flatten(kb.value) == Labels(ActiveByOrder(db.buttons)) && RowsShaped(kb.value)
  {
    var buttons := ActiveByOrder(db.buttons);
    if |buttons| == 0 {
      return None;
    }
    var rows := LayoutRows(buttons);
    kb := Some(rows);
  }

  // ---------------------------------------------------------------- resolving a typed label

  /**
   * `query(Button).filter(Button.text == text, Button.is_active == True).first()`:
   * the first active button, in table order, whose label equals `text` exactly.
   */
  function FindActive(bs: seq<Button>, text: string): (r: Option<Button>)
    ensures r.Some? ==> r.value in bs && r.value.text == text && r.value.isActive
    ensures r.None? <==> forall i :: 0 <= i < |bs| ==> !(bs[i].isActive && bs[i].text == text)
    ensures r.Some? ==> exists i :: 0 <= i < |bs| && bs[i] == r.value &&
                                   forall j :: 0 <= j < i ==> !(bs[j].isActive && bs[j].text == text)
  {
    if |bs| == 0 then None
    else if bs[0].isActive && bs[0].text == text then Some(bs[0])
    else
      var r := FindActive(bs[1..], text);
      if r.Some? then
        var i :| 0 <= i < |bs[1..]| && bs[1..][i] == r.value &&
          forall j :: 0 <= j < i ==> !(bs[1..][j].isActive && bs[1..][j].text == text);
        assert bs[i + 1] == r.value;
        r
      else r
  }
}
