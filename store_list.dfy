/** The store list page: the fetched stores, a case-insensitive search over
    name and location, and an add/edit modal. */
module StoreList {
  import opened Wrappers
  import opened Text
  import opened Seqs
  import opened Models

  /** The search test of `filterStores`: the lower-cased term occurs in the
      lower-cased name or in the lower-cased location. */
  predicate StoreMatches(store: Store, term: string)
  {
    Includes(ToLower(store.name), ToLower(term)) || Includes(ToLower(store.location), ToLower(term))
  }

  function StoreTest(term: string): Store -> bool
  {
    store => StoreMatches(store, term)
  }

  /** The stores that `filterStores` keeps for `term`, recomputed from the full list. */
  function StoresMatching(stores: seq<Store>, term: string): seq<Store>
  {
    Filter(stores, StoreTest(term))
  }

  /** The search result is an order-preserving selection of the stores: a store
      is kept, with all its copies, exactly when it matches, and the empty term
      keeps the whole list. */
  lemma StoresMatchingSpec(stores: seq<Store>, term: string)
    ensures IsSubsequence(StoresMatching(stores, term), stores)
    ensures forall s :: s in StoresMatching(stores, term) <==> s in stores && StoreMatches(s, term)
    ensures forall s :: multiset(StoresMatching(stores, term))[s]
                        == if StoreMatches(s, term) then multiset(stores)[s] else 0
    ensures term == "" ==> StoresMatching(stores, term) == stores
  {
    FilterIsSubsequence(stores, StoreTest(term));
    forall s
      ensures multiset(StoresMatching(stores, term))[s]
              == if StoreMatches(s, term) then multiset(stores)[s] else 0
    {
      FilterMultiplicity(stores, StoreTest(term), s);
    }
    if term == "" {
      forall s | s in stores
        ensures StoreTest(term)(s)
      {
        assert Includes(ToLower(s.name), ToLower(term));
      }
      FilterKeepsAll(stores, StoreTest(term));
    }
  }

  /** Searching the list that a search produced, with the same term, finds the same stores. */
  lemma StoresMatchingIdempotent(stores: seq<Store>, term: string)
    ensures StoresMatching(StoresMatching(stores, term), term) == StoresMatching(stores, term)
  {
    FilterIdempotent(stores, StoreTest(term));
  }

  /** The search is case-insensitive in the sense of ASCII case. */
  lemma StoreMatchesIgnoresCase(store: Store, term: string)
    ensures StoreMatches(store, term) <==> StoreMatches(store, ToLower(term))
  {
    ToLowerIdempotent(term);
  }

  /** The search for "la" over a store in New York and one in Los Angeles
      keeps only the second, through its location. */
  lemma SearchByLocationExample()
    ensures StoresMatching([Store(None, "Central", "NY"), Store(None, "West", "LA")], "la")
            == [Store(None, "West", "LA")]
  {
    var central, west := Store(None, "Central", "NY"), Store(None, "West", "LA");
    ExampleMatches();
    var p := StoreTest("la");
    assert [central, west][1..] == [west];
    assert Filter([west], p) == [west];
  }

  lemma ExampleMatches()
    ensures StoreMatches(Store(None, "West", "LA"), "la")
    ensures !StoreMatches(Store(None, "Central", "NY"), "la")
  {
    ExampleLowerCase();
    assert Includes("la", "la") by {
      assert "la" <= "la";
    }
    CentralLacksLa();
    assert !Includes("ny", "la") by {
      assert "ny"[0] == 'n' && "ny"[1..] == "y" && "y"[0] == 'y' && "y"[1..] == "";
    }
  }

  lemma ExampleLowerCase()
    ensures ToLower("la") == "la" && ToLower("LA") == "la"
    ensures ToLower("NY") == "ny" && ToLower("Central") == "central"
  {
  }

  lemma CentralLacksLa()
    ensures !Includes("central", "la")
  {
    var h := "central";
    assert h[0] == 'c' && h[1] == 'e' && h[2] == 'n' && h[3] == 't' && h[4] == 'r' && h[5] == 'a' && h[6] == 'l';
    forall i | 0 <= i <= |h| - 2
      ensures !OccursAt(h, "la", i)
    {
      assert h[i..i + 2][0] == h[i] != 'l';
    }
    IncludesIffOccurs(h, "la");
  }

  /** The page component. Its fields are the component's fields; the search
      box and the form fields are written by the template bindings, modelled by
      `OnSearchInput` and `OnFormInput`. */
  class StoreListComponent {
    var stores: seq<Store>
    var filteredStores: seq<Store>
    var searchTerm: string
    var showAddForm: bool
    var editingStore: Option<Store>
    var currentStore: Store

    constructor ()
      ensures stores == [] && filteredStores == [] && searchTerm == ""
      ensures !showAddForm && editingStore == None && currentStore == BlankStore
      ensures !ModalVisible()
    {
      stores := [];
      filteredStores := [];
      searchTerm := "";
      showAddForm := false;
      editingStore := None;
      currentStore := BlankStore;
    }

    /** The add/edit modal is shown while adding or while a store is being edited. */
    function ModalVisible(): bool
      reads this
    {
      showAddForm || editingStore.Some?
    }

    function ModalTitle(): string
      reads this
    {
      if editingStore.Some? then "Edit Store" else "Add New Store"
    }

    function SubmitLabel(): string
      reads this
    {
      if editingStore.Some? then "Update" else "Add"
    }

    /** `loadStores`, called on page activation: asks for every store. */
    method LoadStores() returns (issued: ApiRequest)
      ensures issued == GetAllStores
    {
      issued := GetAllStores;
    }

    /** The callback of `loadStores`: both lists become the fetched list, whatever
        the search term (the current search is not re-applied). */
    method OnStoresLoaded(fetched: seq<Store>)
      modifies this
      ensures stores == fetched && filteredStores == fetched
      ensures searchTerm == old(searchTerm) && showAddForm == old(showAddForm)
      ensures editingStore == old(editingStore) && currentStore == old(currentStore)
    {
      stores := fetched;
      filteredStores := fetched;
    }

    /** `filterStores`: recomputes the visible stores from `stores` and the term
        alone, so the previous `filteredStores` plays no part. */
    method FilterStores()
      modifies this`filteredStores
      ensures filteredStores == StoresMatching(stores, searchTerm)
    {
      filteredStores := StoresMatching(stores, searchTerm);
    }

    /** Typing in the search box: the binding stores the term, then `filterStores` runs. */
    method OnSearchInput(term: string)
      modifies this`searchTerm, this`filteredStores
      ensures searchTerm == term
      ensures filteredStores == StoresMatching(stores, term)
    {
      searchTerm := term;
      FilterStores();
    }

    /** The "Add Store" button. */
    method OpenAddForm()
      modifies this`showAddForm
      ensures showAddForm && ModalVisible()
    {
      showAddForm := true;
    }

    /** `editStore`: remembers the store and copies it into the form. */
    method EditStore(store: Store)
      modifies this`editingStore, this`currentStore
      ensures editingStore == Some(store) && currentStore == store
      ensures ModalVisible() && ModalTitle() == "Edit Store" && SubmitLabel() == "Update"
    {
      editingStore := Some(store);
      currentStore := store;
    }

    /** The form's name and location inputs; the copied `id` is kept. */
    method OnFormInput(name: string, location: string)
      modifies this`currentStore
      ensures currentStore == old(currentStore).(name := name, location := location)
    {
      currentStore := currentStore.(name := name, location := location);
    }

    /** `deleteStore`: issues the deletion only when the user confirmed it
        (`confirmed` stands for the answer to the confirmation dialog); the
        page state does not change until the call completes. */
    method DeleteStore(id: Option<int>, confirmed: bool) returns (issued: Option<ApiRequest>)
      ensures confirmed ==> issued == Some(ApiRequest.DeleteStore(id))
      ensures !confirmed ==> issued == None
    {
      if confirmed {
        issued := Some(ApiRequest.DeleteStore(id));
      } else {
        issued := None;
      }
    }

    /** Completion of a deletion: the list is fetched again. */
    method OnStoreDeleted() returns (issued: ApiRequest)
      ensures issued == GetAllStores
    {
      issued := LoadStores();
    }

    /** `saveStore`: an update of the edited store (by its id) when one is being
        edited, otherwise an addition; either sends the form's record. */
    method SaveStore() returns (issued: ApiRequest)
      ensures editingStore.Some? ==> issued == UpdateStore(editingStore.value.id, currentStore)
      ensures editingStore.None? ==> issued == AddStore(currentStore)
    {
      if editingStore.Some? {
        issued := UpdateStore(editingStore.value.id, currentStore);
      } else {
        issued := AddStore(currentStore);
      }
    }

    /** Completion of an update or an addition: the list is fetched again and
        the modal is closed. */
    method OnStoreSaved() returns (issued: ApiRequest)
      modifies this`showAddForm, this`editingStore, this`currentStore
      ensures issued == GetAllStores
      ensures !showAddForm && editingStore == None && currentStore == BlankStore
      ensures !ModalVisible()
    {
      issued := LoadStores();
      CloseModal();
    }

    /** `closeModal`: back to the fixed defaults, which hides the modal. */
    method CloseModal()
      modifies this`showAddForm, this`editingStore, this`currentStore
      ensures !showAddForm && editingStore == None && currentStore == BlankStore
      ensures !ModalVisible() && ModalTitle() == "Add New Store"
    {
      showAddForm := false;
      editingStore := None;
      currentStore := BlankStore;
    }
  }
}
