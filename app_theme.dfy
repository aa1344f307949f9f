/** The app-wide provider (`context/ThemeContext.tsx`): the same light/dark
    machine as the theme provider, plus the card size of the product grid,
    which starts small and flips between small and big. */
module AppTheme {
  import opened Options
  import opened LibTheme
  import ProductGrid

  /** `toggleCardType`'s step: small becomes big and big becomes small. */
  function Flipped(cardType: ProductGrid.CardType): (r: ProductGrid.CardType)
    ensures r != cardType
  {
    if cardType == ProductGrid.Small then ProductGrid.Big else ProductGrid.Small
  }

  /** Flipping twice gives the card size back. */
  lemma FlipTwice(cardType: ProductGrid.CardType)
    ensures Flipped(Flipped(cardType)) == cardType
  {
  }

  /** The provider's state: the user's theme choice and the card size. */
  class AppProvider {
    var manualTheme: Option<ThemeName>
    var cardType: ProductGrid.CardType

    /** No theme choice and small cards at first. */
    constructor ()
      ensures manualTheme == None && cardType == ProductGrid.Small
    {
      manualTheme := None;
      cardType := ProductGrid.Small;
    }

    /** `toggleTheme`: flips the theme shown and leaves the card size alone. */
    method ToggleTheme(device: Scheme)
      modifies this
      ensures manualTheme == Toggled(old(manualTheme), device) && cardType == old(cardType)
      ensures forall later: Scheme :: IsDark(manualTheme, later) == !IsDark(old(manualTheme), device)
    {
      manualTheme := Some(if IsDark(manualTheme, device) then Light else Dark);
    }

    /** `setCardType`. */
    method SetCardType(t: ProductGrid.CardType)
      modifies this
      ensures cardType == t && manualTheme == old(manualTheme)
    {
      cardType := t;
    }

    /** `toggleCardType`: flips the card size and leaves the theme alone. */
    method ToggleCardType()
      modifies this
      ensures cardType == Flipped(old(cardType)) && manualTheme == old(manualTheme)
    {
      cardType := if cardType == ProductGrid.Small then ProductGrid.Big else ProductGrid.Small;
    }
  }
}
