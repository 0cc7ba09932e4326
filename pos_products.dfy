/** The till's fixed product catalog: every product the point of sale can put on a ticket. */
module PosProducts {
  import opened Wrappers

  datatype Category = Tacos | Menu | Supplement | Boisson | Special

  /** One size of a sized product, with its own price in CFA francs. */
  datatype PosProductSize = PosProductSize(name: string, price: int)

  /** A product; `price` is the base price, and only some products come in sizes. */
  datatype PosProduct = PosProduct(id: string, name: string, price: int, category: Category,
                                   sizes: Option<seq<PosProductSize>>)

  const Catalog: seq<PosProduct> := [
    PosProduct("tacos-viande", "Tacos Viande", 4000, Tacos,
      Some([PosProductSize("M", 4000), PosProductSize("XL", 6500), PosProductSize("XXL", 10000)])),
    PosProduct("tacos-poulet", "Tacos Poulet", 4000, Tacos,
      Some([PosProductSize("M", 4000), PosProductSize("XL", 6500), PosProductSize("XXL", 10000)])),
    PosProduct("tacos-mixte", "Tacos Mixte", 4000, Tacos,
      Some([PosProductSize("M", 4000), PosProductSize("XL", 6500), PosProductSize("XXL", 10000)])),
    PosProduct("tacos-kfc", "Tacos KFC", 5000, Tacos,
      Some([PosProductSize("M", 5000), PosProductSize("XL", 8000), PosProductSize("XXL", 12000)])),
    PosProduct("tacos-pane-miel", "Tacos Pané Miel", 5500, Tacos,
      Some([PosProductSize("M", 5500), PosProductSize("XL", 8000), PosProductSize("XXL", 12000)])),
    PosProduct("tacos-cordon-bleu", "Tacos Cordon Bleu", 5000, Tacos,
      Some([PosProductSize("M", 5000), PosProductSize("XL", 6500), PosProductSize("XXL", 12000)])),
    PosProduct("tacos-hotdog", "Tacos Hotdog", 4000, Tacos,
      Some([PosProductSize("M", 4000), PosProductSize("XL", 6500), PosProductSize("XXL", 10000)])),
    PosProduct("tacos-merguez", "Tacos Merguez", 4000, Tacos,
      Some([PosProductSize("M", 4000), PosProductSize("XL", 6500), PosProductSize("XXL", 10000)])),
    PosProduct("tacos-crevettes", "Tacos Crevettes", 7500, Tacos,
      Some([PosProductSize("M", 7500), PosProductSize("XL", 12500), PosProductSize("XXL", 18500)])),
    PosProduct("tacos-saumon", "Tacos Saumon", 6000, Tacos,
      Some([PosProductSize("M", 6000), PosProductSize("XL", 8000), PosProductSize("XXL", 12000)])),
    PosProduct("tacos-corned-beef", "Tacos Corned-Beef", 4000, Tacos,
      Some([PosProductSize("M", 4000), PosProductSize("XL", 6500), PosProductSize("XXL", 10000)])),
    PosProduct("menu-viande", "MENU Tacos Viande", 5000, Menu,
      Some([PosProductSize("M", 5000), PosProductSize("XL", 7500), PosProductSize("XXL", 11000)])),
    PosProduct("menu-poulet", "MENU Tacos Poulet", 5000, Menu,
      Some([PosProductSize("M", 5000), PosProductSize("XL", 7500), PosProductSize("XXL", 11000)])),
    PosProduct("menu-mixte", "MENU Tacos Mixte", 5000, Menu,
      Some([PosProductSize("M", 5000), PosProductSize("XL", 7500), PosProductSize("XXL", 11000)])),
    PosProduct("menu-kfc", "MENU Tacos KFC", 6000, Menu,
      Some([PosProductSize("M", 6000), PosProductSize("XL", 9000), PosProductSize("XXL", 13000)])),
    PosProduct("menu-cordon-bleu", "MENU Tacos Cordon Bleu", 6000, Menu,
      Some([PosProductSize("M", 6000), PosProductSize("XL", 9000), PosProductSize("XXL", 13000)])),
    PosProduct("menu-hotdog", "MENU Tacos Hotdog", 5000, Menu,
      Some([PosProductSize("M", 5000), PosProductSize("XL", 7500), PosProductSize("XXL", 11000)])),
    PosProduct("menu-merguez", "MENU Tacos Merguez", 5000, Menu,
      Some([PosProductSize("M", 5000), PosProductSize("XL", 7500), PosProductSize("XXL", 11000)])),
    PosProduct("menu-crevettes", "MENU Tacos Crevettes", 8500, Menu,
      Some([PosProductSize("M", 8500), PosProductSize("XL", 13500), PosProductSize("XXL", 19500)])),
    PosProduct("menu-corned-beef", "MENU Tacos Corned-Beef", 5000, Menu,
      Some([PosProductSize("M", 5000), PosProductSize("XL", 7500), PosProductSize("XXL", 11000)])),
    PosProduct("kfc-box", "MM\'KFC Box", 5000, Special,
      None),
    PosProduct("sup-fromage", "Supplément Fromage", 500, Supplement,
      None),
    PosProduct("sup-frites", "Supplément Frites", 500, Supplement,
      None),
    PosProduct("sup-ananas", "Supplément Ananas", 500, Supplement,
      None),
    PosProduct("sup-olives", "Supplément Olives", 500, Supplement,
      None),
    PosProduct("sup-gratine", "Gratiné", 1000, Supplement,
      None),
    PosProduct("sup-jambon", "Supplément Jambon", 500, Supplement,
      None),
    PosProduct("sup-oeufs", "Supplément Oeufs", 500, Supplement,
      None),
    PosProduct("sup-hotdog", "Supplément Hotdog", 1000, Supplement,
      None),
    PosProduct("boisson", "Boisson", 500, Boisson,
      None),
    PosProduct("menthe-lait", "Menthe au Lait", 1000, Boisson,
      None),
    PosProduct("pane-miel", "Pané miel", 1500, Special,
      None)
  ]

  /** Ticket lines are merged by product id, so no two catalog products share one. */
  lemma CatalogIdsDistinct()
    ensures forall i, j :: 0 <= i < j < |Catalog| ==> Catalog[i].id != Catalog[j].id
  {
    IdsDistinctBlocks00(); IdsDistinctBlocks01(); IdsDistinctBlocks02(); IdsDistinctBlocks03(); IdsDistinctBlocks11();
    IdsDistinctBlocks12(); IdsDistinctBlocks13(); IdsDistinctBlocks22(); IdsDistinctBlocks23(); IdsDistinctBlocks33();
  }

  // The catalog taken in four blocks of eight entries; IdsDistinctBlocksAB compares block A with block B.

  lemma IdsDistinctBlocks00()
    ensures forall i, j :: 0 <= i < j < 8 ==> Catalog[i].id != Catalog[j].id
  {
  }

  lemma IdsDistinctBlocks01()
    ensures forall i, j :: 0 <= i < 8 && 8 <= j < 16 ==> Catalog[i].id != Catalog[j].id
  {
  }

  lemma IdsDistinctBlocks02()
    ensures forall i, j :: 0 <= i < 8 && 16 <= j < 24 ==> Catalog[i].id != Catalog[j].id
  {
  }

  lemma IdsDistinctBlocks03()
    ensures forall i, j :: 0 <= i < 8 && 24 <= j < 32 ==> Catalog[i].id != Catalog[j].id
  {
  }

  lemma IdsDistinctBlocks11()
    ensures forall i, j :: 8 <= i < j < 16 ==> Catalog[i].id != Catalog[j].id
  {
  }

  lemma IdsDistinctBlocks12()
    ensures forall i, j :: 8 <= i < 16 && 16 <= j < 24 ==> Catalog[i].id != Catalog[j].id
  {
  }

  lemma IdsDistinctBlocks13()
    ensures forall i, j :: 8 <= i < 16 && 24 <= j < 32 ==> Catalog[i].id != Catalog[j].id
  {
  }

  lemma IdsDistinctBlocks22()
    ensures forall i, j :: 16 <= i < j < 24 ==> Catalog[i].id != Catalog[j].id
  {
  }

  lemma IdsDistinctBlocks23()
    ensures forall i, j :: 16 <= i < 24 && 24 <= j < 32 ==> Catalog[i].id != Catalog[j].id
  {
  }

  lemma IdsDistinctBlocks33()
    ensures forall i, j :: 24 <= i < j < 32 ==> Catalog[i].id != Catalog[j].id
  {
  }


  /** Every sized product offers exactly M, XL and XXL, in that order. */
  lemma CatalogSizeNames()
    ensures forall i :: 0 <= i < |Catalog| && Catalog[i].sizes.Some? ==>
      var sz := Catalog[i].sizes.value;
      |sz| == 3 && sz[0].name == "M" && sz[1].name == "XL" && sz[2].name == "XXL"
  {
  }

  /** A sized product's base price is the price of its M size. */
  lemma CatalogBasePriceIsM()
    ensures forall i :: 0 <= i < |Catalog| && Catalog[i].sizes.Some? ==>
      |Catalog[i].sizes.value| > 0 && Catalog[i].price == Catalog[i].sizes.value[0].price
  {
  }

  /** Size prices rise strictly from M to XL to XXL. */
  lemma CatalogSizePricesIncrease()
    ensures forall i :: 0 <= i < |Catalog| && Catalog[i].sizes.Some? ==>
      var sz := Catalog[i].sizes.value;
      |sz| == 3 && sz[0].price < sz[1].price < sz[2].price
  {
  }

  /** Exactly the tacos and the menus come in sizes. */
  lemma CatalogSizedCategories()
    ensures forall i :: 0 <= i < |Catalog| ==>
      (Catalog[i].sizes.Some? <==> Catalog[i].category in {Tacos, Menu})
  {
  }

  /** Every price in the catalog, base or per size, is positive. */
  lemma CatalogPricesPositive()
    ensures forall i :: 0 <= i < |Catalog| ==> Catalog[i].price > 0
    ensures forall i, k :: 0 <= i < |Catalog| && Catalog[i].sizes.Some? && 0 <= k < |Catalog[i].sizes.value| ==>
      Catalog[i].sizes.value[k].price > 0
  {
  }

  /** The base price of a catalog product is positive. */
  lemma CatalogProductPricePositive(p: PosProduct)
    requires p in Catalog
    ensures p.price > 0
  {
    CatalogPricesPositive();
  }
}
