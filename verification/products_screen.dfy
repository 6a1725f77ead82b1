/** The products screen (`/produtos`): a fixed listing of products and the
    category filter over it. */
module ProductsScreen {
  import Seqs

  /** A product as the listing shows it; the price is display text and
      the picture is left out. */
  datatype Listing = Listing(id: string, name: string, category: string, price: string, stock: nat)

  /** The filter value that shows every product. */
  const AllCategories: string := "Todos"

  /** The categories offered by the filter, "Todos" first. */
  const Categories: seq<string> := ["Todos", "Sanduíches", "Acompanhamentos", "Bebidas", "Pizzas"]

  const Products: seq<Listing> := [
    Listing("P001", "Hambúrguer Clássico", "Sanduíches", "R$ 25.99", 150),
    Listing("P002", "Batata Frita Grande", "Acompanhamentos", "R$ 12.50", 200),
    Listing("P003", "Suco de Laranja Natural", "Bebidas", "R$ 8.00", 80),
    Listing("P004", "Milkshake de Chocolate", "Bebidas", "R$ 18.00", 40),
    Listing("P005", "Pizza Calabresa Média", "Pizzas", "R$ 45.00", 10),
    Listing("P006", "Anéis de Cebola", "Acompanhamentos", "R$ 10.00", 75),
    Listing("P007", "Café Expresso", "Bebidas", "R$ 6.50", 120)
  ]

  /** `filteredProducts`: every product for "Todos"; otherwise exactly the
      products of the chosen category, none dropped, in listed order. */
  function FilterByCategory(ps: seq<Listing>, category: string): (r: seq<Listing>)
    ensures category == "Todos" ==> r == ps
    ensures category != "Todos" ==> forall i :: 0 <= i < |r| ==> r[i].category == category
    ensures category != "Todos" ==> forall p: Listing :: p.category == category ==> multiset(r)[p] == multiset(ps)[p]
    ensures category != "Todos" ==> forall p: Listing :: p.category != category ==> p !in r
    ensures Seqs.IsSubsequence(r, ps)
  {
    if category == AllCategories then
      Seqs.FilterKeepAll(ps, (p: Listing) => true);
      ps
    else
      var r := Seqs.Filter(ps, (p: Listing) => p.category == category);
      assert forall p: Listing :: p.category != category ==> multiset(r)[p] == 0;
      r
  }

  /** Filtering a second time by the same category changes nothing. */
  lemma FilterIdempotent(ps: seq<Listing>, category: string)
    ensures FilterByCategory(FilterByCategory(ps, category), category) == FilterByCategory(ps, category)
  {
    if category != AllCategories {
      var once := FilterByCategory(ps, category);
      Seqs.FilterKeepAll(once, (p: Listing) => p.category == category);
    }
  }

  /** Two different categories never share a product. */
  lemma CategoriesAreDisjoint(ps: seq<Listing>, a: string, b: string, p: Listing)
    requires a != "Todos" && b != "Todos" && a != b
    ensures !(p in FilterByCategory(ps, a) && p in FilterByCategory(ps, b))
  {
  }

  /** A product is shown under its own category. */
  lemma ShownUnderOwnCategory(ps: seq<Listing>, p: Listing)
    requires p in ps
    ensures p in FilterByCategory(ps, p.category)
  {
    if p.category != AllCategories {
      assert multiset(ps)[p] > 0;
    }
  }

  /** Every product of the listing belongs to a category the filter
      offers, so each one can be reached through the filter. */
  lemma ListingCategoriesOffered(i: int)
    requires 0 <= i < |Products|
    ensures Products[i].category in Categories[1..]
  {
  }
}
