/** The marketplace page: seeding an empty store with demo listings, publishing a listing and
    the category filter. */
module Mercado {
  import opened Wrappers
  import opened Types
  import opened Text
  import opened Seqs
  import opened Storage

  function DemoItems(): (r: seq<MarketplaceItem>)
    ensures |r| == 2 && r[0].id == "m1" && r[1].id == "m2"
  {
    [ MarketplaceItem("m1", "Kart Completo Tony Kart 2023", "$4.500 USD", KartCompleto, Usado,
                      "https://images.unsplash.com/photo-1547631618-f29792042761?w=400",
                      "+54 11 1234 5678"),
      MarketplaceItem("m2", "Motor 150cc KDO Preparado", "$850.000 ARS", Motor, Nuevo,
                      "https://images.unsplash.com/photo-1558981285-6f0c94958bb6?w=400",
                      "+54 11 8765 4321") ]
  }

  /** The load effect: an empty marketplace is replaced by the two demo listings, which are
      also saved; a non-empty one is shown as stored and nothing is written. */
  method Load(store: LocalStore) returns (items: seq<MarketplaceItem>)
    modifies store
    ensures old(store.Marketplace()) == [] ==>
              items == DemoItems() && store.State() == old(store.State()).(marketplace := Some(DemoItems()))
    ensures old(store.Marketplace()) != [] ==>
              items == old(store.Marketplace()) && store.State() == old(store.State())
    ensures store.Marketplace() == items
  {
    var data := store.Marketplace();
    if data == [] {
      items := DemoItems();
      store.SaveMarketplace(items);
    } else {
      items := data;
    }
  }

  /** The publishing form. */
  datatype ItemForm = ItemForm(title: string, price: string, category: MarketCategory,
                               condition: Condition, contact: string)

  function ListingImage(): string {
    "https://images.unsplash.com/photo-1511994298241-608e28f14f66?w=400"
  }

  /** The listing `handleSubmit` builds: the form's fields, the random id and the fixed
      image. */
  function NewItem(form: ItemForm, id: string): (it: MarketplaceItem)
    ensures it.id == id && it.image == ListingImage()
    ensures it.title == form.title && it.price == form.price && it.contact == form.contact
    ensures it.category == form.category && it.condition == form.condition
  {
    MarketplaceItem(id, form.title, form.price, form.category, form.condition, ListingImage(),
                    form.contact)
  }

  /** `handleSubmit`: the new listing goes first, the shown ones follow in their order, and
      the result is saved. */
  method Submit(store: LocalStore, items: seq<MarketplaceItem>, form: ItemForm, id: string)
    returns (updated: seq<MarketplaceItem>)
    modifies store
    ensures |updated| == |items| + 1 && updated[0] == NewItem(form, id) && updated[1..] == items
    ensures store.State() == old(store.State()).(marketplace := Some(updated))
  {
    updated := [NewItem(form, id)] + items;
    store.SaveMarketplace(updated);
  }

  /** Opening the page on an empty store and publishing one listing leaves three listings:
      the new one, then the two demo ones. */
  method FirstListing(form: ItemForm, id: string) returns (stored: seq<MarketplaceItem>)
    ensures stored == [NewItem(form, id)] + DemoItems()
  {
    var store := new LocalStore();
    var items := Load(store);
    var updated := Submit(store, items, form, id);
    stored := store.Marketplace();
  }

  function InFilter(filter: string): MarketplaceItem -> bool {
    (it: MarketplaceItem) => it.category.Label() == filter
  }

  /** `filteredItems`: everything for 'Todos', otherwise the listings of that category. */
  function FilteredItems(items: seq<MarketplaceItem>, filter: string): seq<MarketplaceItem> {
    if filter == "Todos" then items else Filter(items, InFilter(filter))
  }

  lemma FilterShowsCategory(items: seq<MarketplaceItem>, filter: string)
    ensures filter == "Todos" ==> FilteredItems(items, filter) == items
    ensures filter != "Todos" ==>
              forall it :: it in FilteredItems(items, filter) <==> it in items && it.category.Label() == filter
    ensures IsSubsequence(FilteredItems(items, filter), items)
  {
    if filter == "Todos" {
      PrefixSubsequence(items, items);
    } else {
      forall it ensures InFilter(filter)(it) == (it.category.Label() == filter) {
      }
    }
  }

  /** The WhatsApp link: `https://wa.me/` and the contact with all white space removed. */
  function ContactLink(contact: string): (r: string)
    ensures |r| >= 14 && r[..14] == "https://wa.me/"
    ensures forall i :: 14 <= i < |r| ==> !IsWhitespace(r[i])
    ensures IsSubsequence(r[14..], contact)
    ensures forall c :: c in r[14..] <==> c in contact && !IsWhitespace(c)
    ensures forall c :: multiset(r[14..])[c] == if IsWhitespace(c) then 0 else multiset(contact)[c]
  {
    var r := "https://wa.me/" + RemoveWhitespace(contact);
    assert r[14..] == RemoveWhitespace(contact);
    r
  }
}
