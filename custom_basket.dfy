/**
 * The custom basket page: the user picks vegetables from a fixed catalogue, searched by name,
 * into a selection of its own (the same line algebra as the cart, adding one at a time), and
 * confirms it as an order whose item rows carry no basket id.
 */
module CustomBasket {
  import opened Wrappers
  import opened Seqs
  import opened CartLines
  import opened Orders

  /** The fixed catalogue; prices are whole FCFA. */
  const AvailableItems: seq<Product> := [
    Product("123e4567-e89b-12d3-a456-426614174001", "Tomates", 1000),
    Product("123e4567-e89b-12d3-a456-426614174002", "Oignons", 800),
    Product("123e4567-e89b-12d3-a456-426614174003", "Pommes de terre", 1200),
    Product("123e4567-e89b-12d3-a456-426614174004", "Carottes", 900),
    Product("123e4567-e89b-12d3-a456-426614174005", "Poivrons", 1500),
    Product("123e4567-e89b-12d3-a456-426614174006", "Concombres", 700),
    Product("123e4567-e89b-12d3-a456-426614174007", "Aubergines", 1100),
    Product("123e4567-e89b-12d3-a456-426614174008", "Courgettes", 1300),
    Product("123e4567-e89b-12d3-a456-426614174009", "Laitues", 600),
    Product("123e4567-e89b-12d3-a456-426614174010", "Piments", 500)
  ]

  /** Ten products with pairwise distinct ids and strictly positive prices. */
  lemma CatalogueShape()
    ensures |AvailableItems| == 10
    ensures forall i, j :: 0 <= i < j < |AvailableItems| ==> AvailableItems[i].id != AvailableItems[j].id
    ensures forall i :: 0 <= i < |AvailableItems| ==> AvailableItems[i].price > 0
  {
  }

  // ---- the search filter ----

  /** Lower case of one character: the ASCII and Latin-1 capitals map to their small letters. */
  function LowerChar(c: char): char {
    if 'A' <= c <= 'Z' || ('À' <= c <= 'Þ' && c != '×') then (c as int + 32) as char else c
  }

  /** `s.toLowerCase()`, character by character. */
  function ToLower(s: string): (r: string)
    ensures |r| == |s|
    ensures forall i :: 0 <= i < |s| ==> r[i] == LowerChar(s[i])
  {
    if s == [] then [] else [LowerChar(s[0])] + ToLower(s[1..])
  }

  /** `t` sits in `s` starting at index `i`. */
  ghost predicate OccursAt(s: string, t: string, i: int) {
    0 <= i && i + |t| <= |s| && s[i..i + |t|] == t
  }

  lemma OccursAtTail(s: string, t: string, i: int)
    requires s != [] && 0 <= i
    ensures OccursAt(s[1..], t, i) <==> OccursAt(s, t, i + 1)
  {
    if 0 <= i && i + |t| <= |s| - 1 {
      assert s[1..][i..i + |t|] == s[i + 1..i + 1 + |t|];
    }
  }

  /** `s.includes(t)`: `t` occurs somewhere in `s` as a contiguous piece. */
  function Includes(s: string, t: string): (b: bool)
    ensures b <==> exists i :: OccursAt(s, t, i)
    decreases |s|
  {
    if |t| > |s| then false
    else if s[..|t|] == t then
      assert OccursAt(s, t, 0);
      true
    else
      var b := Includes(s[1..], t);
      assert b <==> exists i :: OccursAt(s, t, i) by {
        if b {
          var i :| OccursAt(s[1..], t, i);
          OccursAtTail(s, t, i);
        } else {
          forall i | OccursAt(s, t, i) ensures false {
            assert i != 0;
            OccursAtTail(s, t, i - 1);
          }
        }
      }
      b
  }

  /** `item.name.toLowerCase().includes(searchTerm.toLowerCase())`. */
  predicate NameMatches(item: Product, term: string) {
    Includes(ToLower(item.name), ToLower(term))
  }

  /** `items.filter(item => NameMatches(item, term))`: the matching products, in catalogue order. */
  function FilterByName(items: seq<Product>, term: string): (r: seq<Product>)
    ensures IsSubsequence(r, items)
    ensures forall p :: p in r <==> p in items && NameMatches(p, term)
    ensures forall p :: multiset(r)[p] == if NameMatches(p, term) then multiset(items)[p] else 0
    decreases |items|
  {
    if items == [] then []
    else
      var rest := FilterByName(items[1..], term);
      assert multiset(items) == multiset{items[0]} + multiset(items[1..]) by {
        assert items == [items[0]] + items[1..];
      }
      if NameMatches(items[0], term) then
        var r := [items[0]] + rest;
        assert r[1..] == rest;
        r
      else
        rest
  }

  /** An empty search keeps every product. */
  lemma {:induction false} EmptySearchKeepsAll(items: seq<Product>)
    ensures FilterByName(items, "") == items
    decreases |items|
  {
    if items != [] {
      assert OccursAt(ToLower(items[0].name), ToLower(""), 0);
      EmptySearchKeepsAll(items[1..]);
    }
  }

  /** With no search term the page lists all ten catalogue products. */
  lemma EmptySearchListsCatalogue()
    ensures FilterByName(AvailableItems, "") == AvailableItems
    ensures |FilterByName(AvailableItems, "")| == 10
  {
    EmptySearchKeepsAll(AvailableItems);
  }

  // ---- the page ----

  class CustomBasketPage {
    const store: OrderStore
    var selectedItems: seq<CartItem>
    var searchTerm: string
    var showRecap: bool
    var deliveryMethod: DeliveryMethod
    var paymentMethod: PaymentMethod
    var deliveryAddress: string
    var deliveryNotes: string
    var isSubmitting: bool
    var showSuccess: bool
    var error: Option<string>

    /** The first render, with the `useState` initial values. */
    constructor (store: OrderStore)
      ensures this.store == store && selectedItems == [] && searchTerm == ""
      ensures !showRecap && !isSubmitting && !showSuccess && error == None
      ensures deliveryMethod == Home && paymentMethod == MobileMoney
      ensures deliveryAddress == "" && deliveryNotes == ""
    {
      this.store := store;
      selectedItems, searchTerm := [], "";
      showRecap, isSubmitting, showSuccess, error := false, false, false, None;
      deliveryMethod, paymentMethod := Home, MobileMoney;
      deliveryAddress, deliveryNotes := "", "";
    }

    /** The form as the confirm handler reads it. */
    function Form(): DeliveryForm
      reads this
    {
      DeliveryForm(deliveryMethod, paymentMethod, deliveryAddress, deliveryNotes)
    }

    /** Everything on the page except the selection. */
    function OtherState(): (string, bool, DeliveryForm, bool, bool, Option<string>)
      reads this
    {
      (searchTerm, showRecap, Form(), isSubmitting, showSuccess, error)
    }

    /** `filteredItems`: the catalogue products whose name contains the search term,
        ignoring case, in catalogue order. */
    function FilteredItems(): (r: seq<Product>)
      reads this
      ensures IsSubsequence(r, AvailableItems)
      ensures forall p :: p in r <==> p in AvailableItems && NameMatches(p, searchTerm)
    {
      FilterByName(AvailableItems, searchTerm)
    }

    /** `addItem(item)`: one more of an already selected product, or a new line of 1 copied
        from the catalogue entry. */
    method AddItem(item: Product)
      modifies this
      ensures selectedItems == CartLines.AddItem(old(selectedItems), item, 1)
      ensures HasId(old(selectedItems), item.id) ==>
                |selectedItems| == |old(selectedItems)| &&
                forall i :: 0 <= i < |selectedItems| ==>
                  selectedItems[i].product == old(selectedItems)[i].product &&
                  selectedItems[i].quantity == old(selectedItems)[i].quantity + (if old(selectedItems)[i].product.id == item.id then 1 else 0)
      ensures !HasId(old(selectedItems), item.id) ==> selectedItems == old(selectedItems) + [CartItem(item, 1)]
      ensures WellFormed(old(selectedItems)) ==> WellFormed(selectedItems)
      ensures OtherState() == old(OtherState())
    {
      AddItemKeepsInvariant(selectedItems, item, 1);
      selectedItems := CartLines.AddItem(selectedItems, item, 1);
    }

    /** `removeItem(itemId)`. */
    method RemoveItem(id: string)
      modifies this
      ensures selectedItems == Remove(old(selectedItems), id)
      ensures WellFormed(old(selectedItems)) ==> WellFormed(selectedItems)
      ensures OtherState() == old(OtherState())
    {
      RemoveKeepsInvariant(selectedItems, id);
      selectedItems := Remove(selectedItems, id);
    }

    /** `updateQuantity(itemId, newQuantity)`; below 1 it is `removeItem(itemId)`. */
    method UpdateQuantity(id: string, newQuantity: int)
      modifies this
      ensures selectedItems == CartLines.UpdateQuantity(old(selectedItems), id, newQuantity)
      ensures newQuantity < 1 ==> selectedItems == Remove(old(selectedItems), id)
      ensures WellFormed(old(selectedItems)) ==> WellFormed(selectedItems)
      ensures OtherState() == old(OtherState())
    {
      UpdateQuantityKeepsInvariant(selectedItems, id, newQuantity);
      if newQuantity < 1 {
        RemoveItem(id);
        return;
      }
      selectedItems := SetQuantity(selectedItems, id, newQuantity);
    }

    /** `getTotalPrice()`. */
    method GetTotalPrice() returns (total: int)
      ensures total == Sum(selectedItems, LineTotal)
    {
      total := TotalPrice(selectedItems);
    }

    /** `handleContinueShopping()`: leaves the success screen and the recap, empties the selection. */
    method ContinueShopping()
      modifies this
      ensures !showSuccess && !showRecap && selectedItems == []
      ensures error == old(error) && isSubmitting == old(isSubmitting) && Form() == old(Form())
      ensures searchTerm == old(searchTerm)
    {
      showSuccess := false;
      showRecap := false;
      selectedItems := [];
    }

    /** `handleConfirmOrder()`. The replies of the three awaited store calls (profile lookup,
        order insert, order-items insert) are given; a reply is only used if its call is reached.
        The selection is emptied only when both inserts succeed. */
    method ConfirmOrder(user: Option<User>, lookup: Reply<Option<Profile>>,
                        orderReply: Reply<string>, itemsReply: Reply<()>)
      modifies this, store
      ensures Form() == old(Form()) && showRecap == old(showRecap) && searchTerm == old(searchTerm)
      // no user or nothing selected: nothing happens
      ensures user.None? || old(selectedItems) == [] ==> unchanged(this) && unchanged(store)
      ensures user.Some? && old(selectedItems) != [] ==> !isSubmitting
      // the lookup threw: its message, no rows, selection kept
      ensures user.Some? && old(selectedItems) != [] && lookup.Threw? ==>
                error == Some(ErrorText(lookup.thrown)) && showSuccess == old(showSuccess) &&
                selectedItems == old(selectedItems) && unchanged(store)
      // no phone number: an error, no rows, selection kept
      ensures user.Some? && old(selectedItems) != [] && lookup.Ok? && !HasPhone(lookup.value) ==>
                error == Some("Numéro de téléphone non trouvé") && showSuccess == old(showSuccess) &&
                selectedItems == old(selectedItems) && unchanged(store)
      // a phone number: the order row is inserted if the store accepts it
      ensures user.Some? && old(selectedItems) != [] && lookup.Ok? && HasPhone(lookup.value) ==>
                store.orders ==
                  old(store.orders) + (if orderReply.Ok? then [NewOrder(user.value, Form(), lookup.value.value, old(selectedItems))] else [])
      ensures user.Some? && old(selectedItems) != [] && lookup.Ok? && HasPhone(lookup.value) && orderReply.Threw? ==>
                error == Some(ErrorText(orderReply.thrown)) && showSuccess == old(showSuccess) &&
                selectedItems == old(selectedItems) && store.orderItems == old(store.orderItems)
      // the order row is in: then one item row per selected line, without basket id
      ensures user.Some? && old(selectedItems) != [] && lookup.Ok? && HasPhone(lookup.value) && orderReply.Ok? ==>
                store.orderItems ==
                  old(store.orderItems) + (if itemsReply.Ok? then OrderItemRows(orderReply.value, old(selectedItems), false) else [])
      ensures user.Some? && old(selectedItems) != [] && lookup.Ok? && HasPhone(lookup.value) && orderReply.Ok? && itemsReply.Threw? ==>
                error == Some(ErrorText(itemsReply.thrown)) && showSuccess == old(showSuccess) &&
                selectedItems == old(selectedItems)
      ensures user.Some? && old(selectedItems) != [] && lookup.Ok? && HasPhone(lookup.value) && orderReply.Ok? && itemsReply.Ok? ==>
                error == None && showSuccess && selectedItems == []
    {
      if user.None? || |selectedItems| == 0 {
        return;
      }
      var items := selectedItems;
      isSubmitting := true;
      error := None;
      var thrown: Option<Thrown> := None;  // what reaches `catch`
      if lookup.Threw? {
        thrown := Some(lookup.thrown);
      } else if !HasPhone(lookup.value) {
        error := Some("Numéro de téléphone non trouvé");
      } else {
        var row := NewOrder(user.value, Form(), lookup.value.value, items);
        store.InsertOrder(row, orderReply);
        if orderReply.Threw? {
          thrown := Some(orderReply.thrown);
        } else {
          store.InsertOrderItems(OrderItemRows(orderReply.value, items, false), itemsReply);
          if itemsReply.Threw? {
            thrown := Some(itemsReply.thrown);
          } else {
            showSuccess := true;
            selectedItems := [];
          }
        }
      }
      if thrown.Some? {
        error := Some(ErrorText(thrown.value));
      }
      isSubmitting := false;  // `finally`
    }
  }

}
