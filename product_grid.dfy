/** The layout arithmetic of the product grid hook (`useProductGrid`): the
    fixed row height of each card size, the offset of an item from its row,
    and whether rows get a column wrapper. The number of columns comes from
    a helper outside this model and is a parameter here. */
module ProductGrid {
  import opened Options

  /** The two card sizes. */
  datatype CardType = Big | Small

  /** What `getItemLayout` reports for one item. */
  datatype Layout = Layout(length: nat, offset: nat, index: nat)

  /** The height of a row of cards. */
  function RowHeight(cardType: CardType): (h: nat)
    ensures cardType == Big ==> h == 240
    ensures cardType == Small ==> h == 200
  {
    if cardType == Big then 240 else 200
  }

  /** `getItemLayout`: every item is one row high and sits at the top of its
      row, the row being `index / gridColumns` rounded down. */
  function ItemLayout(cardType: CardType, gridColumns: nat, index: nat): (r: Layout)
    requires gridColumns > 0
    ensures r.index == index && r.length == RowHeight(cardType)
  {
    Layout(RowHeight(cardType), RowHeight(cardType) * (index / gridColumns), index)
  }

  /** A product grows with its first factor. */
  lemma {:induction false} MulMonotone(a: nat, b: nat, d: nat)
    requires a <= b
    ensures a * d <= b * d
    decreases b - a
  {
    if a < b {
      MulMonotone(a, b - 1, d);
      assert b * d == (b - 1) * d + d;
    }
  }

  /** A smaller product has a smaller first factor. */
  lemma MulCancel(a: nat, b: nat, d: nat)
    requires a * d < b * d
    ensures a < b
  {
    if a >= b {
      MulMonotone(b, a, d);
    }
  }

  /** The quotient and remainder are the only ones. */
  lemma DivUnique(a: nat, d: nat, q: nat, rem: nat)
    requires d > 0 && rem < d && a == q * d + rem
    ensures a / d == q
  {
    var q0, r0 := a / d, a % d;
    assert a == q0 * d + r0;
    if q0 > q {
      assert (q + 1) * d == q * d + d;
      MulMonotone(q + 1, q0, d);
    } else if q0 < q {
      assert (q0 + 1) * d == q0 * d + d;
      MulMonotone(q0 + 1, q, d);
    }
  }

  /** The items of one row share their offset, and each row starts one row
      height below the previous one. */
  lemma RowsStack(cardType: CardType, gridColumns: nat, row: nat, column: nat)
    requires gridColumns > 0 && column < gridColumns
    ensures ItemLayout(cardType, gridColumns, row * gridColumns + column).offset == RowHeight(cardType) * row
    ensures ItemLayout(cardType, gridColumns, (row + 1) * gridColumns).offset ==
      ItemLayout(cardType, gridColumns, row * gridColumns + column).offset + RowHeight(cardType)
  {
    DivUnique(row * gridColumns + column, gridColumns, row, column);
    DivUnique((row + 1) * gridColumns, gridColumns, row + 1, 0);
    assert RowHeight(cardType) * (row + 1) == RowHeight(cardType) * row + RowHeight(cardType);
  }

  /** Integer division by a positive number is monotone. */
  lemma DivMonotone(i: nat, j: nat, d: nat)
    requires d > 0 && i <= j
    ensures i / d <= j / d
  {
    var qi, qj := i / d, j / d;
    assert i == qi * d + i % d && j == qj * d + j % d;
    assert (qj + 1) * d == qj * d + d;
    MulCancel(qi, qj + 1, d);
  }

  /** A later item never sits above an earlier one. */
  lemma OffsetsIncrease(cardType: CardType, gridColumns: nat, i: nat, j: nat)
    requires gridColumns > 0 && i <= j
    ensures ItemLayout(cardType, gridColumns, i).offset <= ItemLayout(cardType, gridColumns, j).offset
  {
    DivMonotone(i, j, gridColumns);
    var h := RowHeight(cardType);
    MulMonotone(i / gridColumns, j / gridColumns, h);
    assert h * (i / gridColumns) == (i / gridColumns) * h;
    assert h * (j / gridColumns) == (j / gridColumns) * h;
  }

  /** A single column puts item `i` at `i` row heights. */
  lemma OneColumnIsAList(cardType: CardType, index: nat)
    ensures ItemLayout(cardType, 1, index).offset == index * RowHeight(cardType)
  {
  }

  /** The wrapper style of a row (`columnWrapperStyle`): a gap between cards. */
  datatype Wrapper = Wrapper(justifyContent: string, gap: real, paddingHorizontal: real)

  /** `columnWrapperStyle`: only a grid of more than one column has one. */
  function ColumnWrapper(gridColumns: nat, cardGap: real): (r: Option<Wrapper>)
    ensures r.Some? <==> gridColumns > 1
    ensures r.Some? ==> r.value.gap == cardGap && r.value.paddingHorizontal == 0.0
  {
    if gridColumns > 1 then Some(Wrapper("flex-start", cardGap, 0.0)) else None
  }
}
