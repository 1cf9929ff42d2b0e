/** The service catalog page: service categories and services kept as
    in-memory lists, the handlers that create, save and delete rows, and the
    search filters of the two lists. The datastore writes behind each
    handler are the `InsertResult`/`WriteResult` parameters. */
module Services {
  import opened Wrappers
  import opened Text
  import opened Seqs
  import opened Backend

  datatype Category = Category(id: string, name: string, description: Option<string>, sortOrder: int)

  /** A service; `basePrice` is the parsed CHF price (left abstract as an
      integer), `None` when no price was given. */
  datatype Service = Service(id: string, categoryId: string, name: string, description: Option<string>,
                             isActive: bool, basePrice: Option<int>)

  /** `text.trim() || null` */
  function OptionalText(text: string): (r: Option<string>)
    ensures r.None? <==> IsBlank(text)
    ensures r.Some? ==> r.value == Trim(text) && r.value != ""
  {
    if Trim(text) == "" then None else Some(Trim(text))
  }

  /* ---------- sort order ---------- */

  ghost predicate SortedByOrder(cs: seq<Category>) {
    forall i, j :: 0 <= i < j < |cs| ==> cs[i].sortOrder <= cs[j].sortOrder
  }

  /** The sort order given to a new category: 1 for an empty list, otherwise
      one more than the largest existing sort order. */
  function NextSortOrder(cs: seq<Category>): (r: int)
    ensures cs == [] ==> r == 1
    ensures forall i :: 0 <= i < |cs| ==> cs[i].sortOrder < r
    ensures cs != [] ==> exists i :: 0 <= i < |cs| && r == cs[i].sortOrder + 1
  {
    if cs == [] then 1
    else if |cs| == 1 then cs[0].sortOrder + 1
    else
      var rest := NextSortOrder(cs[1..]);
      if cs[0].sortOrder + 1 >= rest then cs[0].sortOrder + 1 else rest
  }

  /** Puts `c` into `cs` after every trailing row whose sort order is larger,
      as one step of a stable insertion sort does. */
  function InsertByOrder(cs: seq<Category>, c: Category): (r: seq<Category>)
    ensures |r| == |cs| + 1
  {
    if cs == [] || cs[|cs| - 1].sortOrder <= c.sortOrder then cs + [c]
    else InsertByOrder(cs[..|cs| - 1], c) + [cs[|cs| - 1]]
  }

  /** Inserting into a list in sort order keeps it in sort order, and no row
      of the result has a larger sort order than both `c` and the old last
      row. */
  lemma {:induction false} InsertKeepsSorted(cs: seq<Category>, c: Category)
    requires SortedByOrder(cs)
    ensures SortedByOrder(InsertByOrder(cs, c))
    ensures forall i :: 0 <= i < |cs| + 1 ==>
              InsertByOrder(cs, c)[i].sortOrder <= c.sortOrder
              || (cs != [] && InsertByOrder(cs, c)[i].sortOrder <= cs[|cs| - 1].sortOrder)
  {
    if !(cs == [] || cs[|cs| - 1].sortOrder <= c.sortOrder) {
      var init, last := cs[..|cs| - 1], cs[|cs| - 1];
      assert cs == init + [last];
      InsertKeepsSorted(init, c);
      var r' := InsertByOrder(init, c);
      assert InsertByOrder(cs, c) == r' + [last];
      assert forall i :: 0 <= i < |r'| ==> r'[i].sortOrder <= last.sortOrder;
    }
  }

  /** `list.sort((a, b) => a.sort_order - b.sort_order)`; the sort is stable. */
  function SortByOrder(cs: seq<Category>): (r: seq<Category>)
    ensures |r| == |cs|
  {
    if cs == [] then [] else InsertByOrder(SortByOrder(cs[..|cs| - 1]), cs[|cs| - 1])
  }

  /** The sort puts the rows in sort order. */
  lemma {:induction false} SortIsSorted(cs: seq<Category>)
    ensures SortedByOrder(SortByOrder(cs))
  {
    if cs != [] {
      SortIsSorted(cs[..|cs| - 1]);
      InsertKeepsSorted(SortByOrder(cs[..|cs| - 1]), cs[|cs| - 1]);
    }
  }

  lemma {:induction false} InsertIsPermutation(cs: seq<Category>, c: Category)
    ensures multiset(InsertByOrder(cs, c)) == multiset(cs) + multiset{c}
  {
    if !(cs == [] || cs[|cs| - 1].sortOrder <= c.sortOrder) {
      var init := cs[..|cs| - 1];
      assert cs == init + [cs[|cs| - 1]];
      InsertIsPermutation(init, c);
    }
  }

  /** The sorted list is a permutation of the input. */
  lemma {:induction false} SortIsPermutation(cs: seq<Category>)
    ensures multiset(SortByOrder(cs)) == multiset(cs)
  {
    if cs != [] {
      var init := cs[..|cs| - 1];
      assert cs == init + [cs[|cs| - 1]];
      SortIsPermutation(init);
      InsertIsPermutation(SortByOrder(init), cs[|cs| - 1]);
    }
  }

  /** Sorting keeps exactly the rows it was given. */
  lemma SortKeepsRows(cs: seq<Category>)
    ensures forall i :: 0 <= i < |cs| ==> cs[i] in SortByOrder(cs)
    ensures forall i :: 0 <= i < |SortByOrder(cs)| ==> SortByOrder(cs)[i] in cs
  {
    var r := SortByOrder(cs);
    SortIsPermutation(cs);
    forall i | 0 <= i < |cs| ensures cs[i] in r {
      assert cs[i] in multiset(cs);
    }
    forall i | 0 <= i < |r| ensures r[i] in cs {
      assert r[i] in multiset(r);
    }
  }

  /** Sorting a list that is already in order changes nothing. */
  lemma {:induction false} SortSortedIsIdentity(cs: seq<Category>)
    requires SortedByOrder(cs)
    ensures SortByOrder(cs) == cs
  {
    if cs != [] {
      var init := cs[..|cs| - 1];
      SortSortedIsIdentity(init);
      assert cs == init + [cs[|cs| - 1]];
    }
  }

  /** A new category carries NextSortOrder, so re-sorting after the create
      just appends it: the list holds every old row, in their old order,
      then the new one. */
  lemma CreateAppendsInOrder(cs: seq<Category>, c: Category)
    requires SortedByOrder(cs)
    requires c.sortOrder == NextSortOrder(cs)
    ensures SortByOrder(cs + [c]) == cs + [c]
    ensures SortedByOrder(cs + [c])
  {
    assert (cs + [c])[..|cs|] == cs;
    SortSortedIsIdentity(cs);
  }

  /** The row the datastore returns for a new category: the trimmed name,
      the description or null, and the next sort order. */
  function NewCategory(cs: seq<Category>, id: string, name: string, description: string): Category
  {
    Category(id, Trim(name), OptionalText(description), NextSortOrder(cs))
  }

  /* ---------- unique ids ---------- */

  ghost predicate UniqueCategoryIds(cs: seq<Category>) {
    forall i, j :: 0 <= i < j < |cs| ==> cs[i].id != cs[j].id
  }

  ghost predicate UniqueServiceIds(ss: seq<Service>) {
    forall i, j :: 0 <= i < j < |ss| ==> ss[i].id != ss[j].id
  }

  lemma AppendKeepsUniqueIds(cs: seq<Category>, c: Category)
    requires UniqueCategoryIds(cs)
    requires forall i :: 0 <= i < |cs| ==> cs[i].id != c.id
    ensures UniqueCategoryIds(cs + [c])
  {
  }

  /* ---------- row-level updates ---------- */

  /** The local effect of saving a category: each row with the id takes the
      new name and description; its id and sort order stay. */
  function ReplaceCategory(cs: seq<Category>, id: string, name: string, description: Option<string>): (r: seq<Category>)
    ensures |r| == |cs|
    ensures forall i :: 0 <= i < |cs| ==> r[i].id == cs[i].id && r[i].sortOrder == cs[i].sortOrder
    ensures forall i :: 0 <= i < |cs| && cs[i].id != id ==> r[i] == cs[i]
    ensures forall i :: 0 <= i < |cs| && cs[i].id == id ==> r[i].name == name && r[i].description == description
  {
    if cs == [] then []
    else [if cs[0].id == id then cs[0].(name := name, description := description) else cs[0]]
         + ReplaceCategory(cs[1..], id, name, description)
  }

  /** Saving keeps every sort order, so the re-sort after a save leaves the
      replaced list as it is. */
  lemma SaveNeedsNoReorder(cs: seq<Category>, id: string, name: string, description: Option<string>)
    requires SortedByOrder(cs) && UniqueCategoryIds(cs)
    ensures SortedByOrder(ReplaceCategory(cs, id, name, description))
    ensures UniqueCategoryIds(ReplaceCategory(cs, id, name, description))
    ensures SortByOrder(ReplaceCategory(cs, id, name, description)) == ReplaceCategory(cs, id, name, description)
  {
    SortSortedIsIdentity(ReplaceCategory(cs, id, name, description));
  }

  /** `prev.filter((category) => category.id !== id)` */
  function RemoveCategory(cs: seq<Category>, id: string): (r: seq<Category>)
    ensures forall i :: 0 <= i < |r| ==> r[i] in cs && r[i].id != id
    ensures forall i :: 0 <= i < |cs| && cs[i].id != id ==> cs[i] in r
  {
    FilterKeepsPassing(cs, (c: Category) => c.id != id);
    Filter(cs, (c: Category) => c.id != id)
  }

  lemma RemoveCategoryKeepsInvariant(cs: seq<Category>, id: string)
    requires SortedByOrder(cs) && UniqueCategoryIds(cs)
    ensures SortedByOrder(RemoveCategory(cs, id)) && UniqueCategoryIds(RemoveCategory(cs, id))
  {
    var p := (c: Category) => c.id != id;
    FilterKeepsPairwise(cs, p, (a: Category, b: Category) => a.sortOrder <= b.sortOrder);
    FilterKeepsPairwise(cs, p, (a: Category, b: Category) => a.id != b.id);
  }

  /** The local effect of saving a service: each row with the id takes the
      new name, description, category and price; id and active flag stay. */
  function ReplaceService(ss: seq<Service>, id: string, name: string, description: Option<string>,
                          categoryId: string, price: Option<int>): (r: seq<Service>)
    ensures |r| == |ss|
    ensures forall i :: 0 <= i < |ss| ==> r[i].id == ss[i].id && r[i].isActive == ss[i].isActive
    ensures forall i :: 0 <= i < |ss| && ss[i].id != id ==> r[i] == ss[i]
    ensures forall i :: 0 <= i < |ss| && ss[i].id == id ==>
              r[i].name == name && r[i].description == description
              && r[i].categoryId == categoryId && r[i].basePrice == price
  {
    if ss == [] then []
    else [if ss[0].id == id then ss[0].(name := name, description := description, categoryId := categoryId, basePrice := price)
          else ss[0]]
         + ReplaceService(ss[1..], id, name, description, categoryId, price)
  }

  function RemoveService(ss: seq<Service>, id: string): (r: seq<Service>)
    ensures forall i :: 0 <= i < |r| ==> r[i] in ss && r[i].id != id
    ensures forall i :: 0 <= i < |ss| && ss[i].id != id ==> ss[i] in r
  {
    FilterKeepsPassing(ss, (s: Service) => s.id != id);
    Filter(ss, (s: Service) => s.id != id)
  }

  /** `services.some((service) => service.category_id === id)` */
  predicate HasServices(ss: seq<Service>, categoryId: string) {
    exists i :: 0 <= i < |ss| && ss[i].categoryId == categoryId
  }

  /** The category selected after deleting the selected one: the first
      remaining category, or none (""). */
  function FirstIdOrEmpty(cs: seq<Category>): (r: string)
    ensures cs == [] ==> r == ""
    ensures cs != [] ==> r == cs[0].id
  {
    if cs == [] then "" else cs[0].id
  }

  /* ---------- price field ---------- */

  datatype PriceField = NoPrice | Price(value: int) | InvalidPrice

  /** The price box: blank text means no price; otherwise the parsed number
      (`parsed`, `None` standing for NaN) must be non-negative. */
  function ReadPrice(text: string, parsed: Option<int>): (r: PriceField)
    ensures IsBlank(text) <==> r == NoPrice
    ensures r == InvalidPrice <==> !IsBlank(text) && (parsed.None? || parsed.value < 0)
    ensures r.Price? ==> parsed == Some(r.value) && r.value >= 0
  {
    if Trim(text) == "" then NoPrice
    else if parsed.None? || parsed.value < 0 then InvalidPrice
    else Price(parsed.value)
  }

  /* ---------- search ---------- */

  /** The search term as both lists use it: trimmed and lower-cased. */
  function SearchTerm(search: string): string {
    Lower(Trim(search))
  }

  function DescriptionText(description: Option<string>): string {
    description.GetOr("")
  }

  predicate CategoryMatches(c: Category, term: string) {
    Contains(Lower(c.name + " " + DescriptionText(c.description)), term)
  }

  /** The category list as shown: sorted by sort order, then narrowed by
      the search box when it holds more than spaces. */
  function VisibleCategories(cs: seq<Category>, search: string): seq<Category>
  {
    var term := SearchTerm(search);
    Filter(SortByOrder(cs), (c: Category) => term == "" || CategoryMatches(c, term))
  }

  /** A blank search shows every category in sort order; otherwise exactly
      the categories whose name and description contain the term. */
  lemma VisibleCategoriesSpec(cs: seq<Category>, search: string)
    ensures IsBlank(search) ==> VisibleCategories(cs, search) == SortByOrder(cs)
    ensures SortedByOrder(VisibleCategories(cs, search))
    ensures forall i :: 0 <= i < |VisibleCategories(cs, search)| ==> VisibleCategories(cs, search)[i] in cs
    ensures !IsBlank(search) ==>
              (forall i :: 0 <= i < |VisibleCategories(cs, search)| ==>
                 CategoryMatches(VisibleCategories(cs, search)[i], SearchTerm(search)))
              && (forall i :: 0 <= i < |cs| && CategoryMatches(cs[i], SearchTerm(search)) ==>
                 cs[i] in VisibleCategories(cs, search))
  {
    var sorted := SortByOrder(cs);
    SortIsSorted(cs);
    var term := SearchTerm(search);
    var keep := (c: Category) => term == "" || CategoryMatches(c, term);
    FilterKeepsPairwise(sorted, keep, (a: Category, b: Category) => a.sortOrder <= b.sortOrder);
    SortKeepsRows(cs);
    FilterKeepsPassing(sorted, keep);
    if IsBlank(search) {
      FilterKeepsAll(sorted, keep);
    } else {
      assert term != "";
    }
  }

  /** `new Map(categories.map((c) => [c.id, c]))`: a later row with the
      same id replaces an earlier one. */
  function CategoryIndex(cs: seq<Category>): (m: map<string, Category>)
    ensures forall id :: id in m <==> exists i :: 0 <= i < |cs| && cs[i].id == id
    ensures forall id :: id in m ==> m[id] in cs && m[id].id == id
  {
    if cs == [] then map[]
    else
      var m' := CategoryIndex(cs[..|cs| - 1]);
      assert forall c :: c in cs[..|cs| - 1] ==> c in cs;
      m'[cs[|cs| - 1].id := cs[|cs| - 1]]
  }

  predicate ServiceMatches(s: Service, index: map<string, Category>, term: string) {
    var categoryName := if s.categoryId in index then index[s.categoryId].name else "";
    Contains(Lower(s.name + " " + DescriptionText(s.description) + " " + categoryName), term)
  }

  /** The service list as shown, narrowed by the search box; the category's
      name is searched too. */
  function VisibleServices(ss: seq<Service>, cs: seq<Category>, search: string): seq<Service>
  {
    var term := SearchTerm(search);
    var index := CategoryIndex(cs);
    Filter(ss, (s: Service) => term == "" || ServiceMatches(s, index, term))
  }

  /** A blank search shows every service in list order; otherwise exactly the
      services whose name, description and category name contain the term,
      in list order. */
  lemma VisibleServicesSpec(ss: seq<Service>, cs: seq<Category>, search: string)
    ensures IsBlank(search) ==> VisibleServices(ss, cs, search) == ss
    ensures forall i :: 0 <= i < |VisibleServices(ss, cs, search)| ==> VisibleServices(ss, cs, search)[i] in ss
    ensures !IsBlank(search) ==>
              (forall i :: 0 <= i < |VisibleServices(ss, cs, search)| ==>
                 ServiceMatches(VisibleServices(ss, cs, search)[i], CategoryIndex(cs), SearchTerm(search)))
              && (forall i :: 0 <= i < |ss| && ServiceMatches(ss[i], CategoryIndex(cs), SearchTerm(search)) ==>
                 ss[i] in VisibleServices(ss, cs, search))
  {
    var term := SearchTerm(search);
    var index := CategoryIndex(cs);
    var keep := (s: Service) => term == "" || ServiceMatches(s, index, term);
    FilterKeepsPassing(ss, keep);
    if IsBlank(search) {
      FilterKeepsAll(ss, keep);
    } else {
      assert term != "";
    }
  }

  /* ---------- the page state ---------- */

  const CategoryNameMissing := "Please enter a category name."
  const CategoryHasServices := "Cannot delete category with existing services. Delete or reassign those services first."
  const CategorySelectionMissing := "Please select a category."
  const ServiceNameMissing := "Please enter a service name."
  const PriceRejected := "Please enter a valid CHF price."

  class ServiceCatalog {
    var categories: seq<Category>
    var services: seq<Service>
    /** The category a new service goes into; "" when none is selected. */
    var selectedCategoryId: string
    var categoryMessage: Option<string>
    var serviceMessage: Option<string>

    /** The lists as the page keeps them: categories in sort order, and ids
        unique in both lists (the datastore assigns them). */
    ghost predicate Valid()
      reads this
    {
      SortedByOrder(categories) && UniqueCategoryIds(categories) && UniqueServiceIds(services)
    }

    ghost predicate CategoryIdUnused(id: string)
      reads this
    {
      forall i :: 0 <= i < |categories| ==> categories[i].id != id
    }

    ghost predicate ServiceIdUnused(id: string)
      reads this
    {
      forall i :: 0 <= i < |services| ==> services[i].id != id
    }

    /** The page after a successful load: categories come ordered by sort
        order, and the first one is selected when none was. */
    constructor (loadedCategories: seq<Category>, loadedServices: seq<Service>)
      requires SortedByOrder(loadedCategories) && UniqueCategoryIds(loadedCategories)
      requires UniqueServiceIds(loadedServices)
      ensures Valid()
      ensures categories == loadedCategories && services == loadedServices
      ensures selectedCategoryId == FirstIdOrEmpty(loadedCategories)
      ensures categoryMessage == None && serviceMessage == None
    {
      categories := loadedCategories;
      services := loadedServices;
      selectedCategoryId := FirstIdOrEmpty(loadedCategories);
      categoryMessage := None;
      serviceMessage := None;
    }

    /** handleCreateCategory */
    method CreateCategory(name: string, description: string, insert: InsertResult)
      requires Valid()
      requires insert.Inserted? ==> CategoryIdUnused(insert.id)
      modifies this
      ensures Valid()
      ensures services == old(services) && serviceMessage == old(serviceMessage)
      ensures IsBlank(name) ==>
                categories == old(categories) && selectedCategoryId == old(selectedCategoryId)
                && categoryMessage == Some(CategoryNameMissing)
      ensures !IsBlank(name) && insert.InsertFailed? ==>
                categories == old(categories) && selectedCategoryId == old(selectedCategoryId)
                && categoryMessage == Some(ErrorText(insert.message, "Failed to create category."))
      ensures !IsBlank(name) && insert.Inserted? ==>
                categories == old(categories) + [NewCategory(old(categories), insert.id, name, description)]
                && selectedCategoryId == (if old(selectedCategoryId) == "" then insert.id else old(selectedCategoryId))
                && categoryMessage == Some("Category created.")
    {
      if Trim(name) == "" {
        categoryMessage := Some(CategoryNameMissing);
      } else {
        match insert {
          case InsertFailed(message) =>
            categoryMessage := Some(ErrorText(message, "Failed to create category."));
          case Inserted(id) =>
            var created := NewCategory(categories, id, name, description);
            AddCategory(created);
            if selectedCategoryId == "" {
              selectedCategoryId := created.id;
            }
            categoryMessage := Some("Category created.");
        }
      }
    }

    /** The list update after a create: the returned row is appended and the
        list re-sorted by sort order. */
    method AddCategory(created: Category)
      requires Valid()
      requires CategoryIdUnused(created.id) && created.sortOrder == NextSortOrder(categories)
      modifies this
      ensures Valid()
      ensures categories == old(categories) + [created]
      ensures services == old(services) && selectedCategoryId == old(selectedCategoryId)
      ensures categoryMessage == old(categoryMessage) && serviceMessage == old(serviceMessage)
    {
      CreateAppendsInOrder(categories, created);
      AppendKeepsUniqueIds(categories, created);
      categories := SortByOrder(categories + [created]);
    }

    /** handleSaveCategory */
    method SaveCategory(categoryId: string, name: string, description: string, update: WriteResult)
      requires Valid()
      modifies this
      ensures Valid()
      ensures services == old(services) && selectedCategoryId == old(selectedCategoryId)
      ensures serviceMessage == old(serviceMessage)
      ensures IsBlank(name) ==> categories == old(categories) && categoryMessage == Some(CategoryNameMissing)
      ensures !IsBlank(name) && update.WriteFailed? ==>
                categories == old(categories)
                && categoryMessage == Some(ErrorText(update.message, "Failed to update category."))
      ensures !IsBlank(name) && update.Written? ==>
                categories == ReplaceCategory(old(categories), categoryId, Trim(name), OptionalText(description))
                && categoryMessage == Some("Category updated.")
    {
      if Trim(name) == "" {
        categoryMessage := Some(CategoryNameMissing);
        return;
      }
      categoryMessage := None;
      match update {
        case WriteFailed(message) =>
          categoryMessage := Some(ErrorText(message, "Failed to update category."));
        case Written =>
          var trimmedName, desc := Trim(name), OptionalText(description);
          var replaced := ReplaceCategory(categories, categoryId, trimmedName, desc);
          SaveNeedsNoReorder(categories, categoryId, trimmedName, desc);
          var next := SortByOrder(replaced);
          assert next == replaced;
          categories := next;
          categoryMessage := Some("Category updated.");
      }
    }

    /** handleDeleteCategory */
    method DeleteCategory(categoryId: string, delete: WriteResult)
      requires Valid()
      modifies this
      ensures Valid()
      ensures services == old(services) && serviceMessage == old(serviceMessage)
      ensures HasServices(old(services), categoryId) ==>
                categories == old(categories) && selectedCategoryId == old(selectedCategoryId)
                && categoryMessage == Some(CategoryHasServices)
      ensures !HasServices(old(services), categoryId) && delete.WriteFailed? ==>
                categories == old(categories) && selectedCategoryId == old(selectedCategoryId)
                && categoryMessage == Some(ErrorText(delete.message, "Failed to delete category."))
      ensures !HasServices(old(services), categoryId) && delete.Written? ==>
                categories == RemoveCategory(old(categories), categoryId)
                && selectedCategoryId == (if old(selectedCategoryId) == categoryId then FirstIdOrEmpty(categories)
                                          else old(selectedCategoryId))
                && categoryMessage == Some("Category deleted.")
    {
      if exists i :: 0 <= i < |services| && services[i].categoryId == categoryId {
        categoryMessage := Some(CategoryHasServices);
        return;
      }
      categoryMessage := None;
      match delete {
        case WriteFailed(message) =>
          categoryMessage := Some(ErrorText(message, "Failed to delete category."));
        case Written =>
          RemoveCategoryKeepsInvariant(categories, categoryId);
          var remaining := RemoveCategory(categories, categoryId);
          categories := remaining;
          if selectedCategoryId == categoryId {
            selectedCategoryId := FirstIdOrEmpty(remaining);
          }
          categoryMessage := Some("Category deleted.");
      }
    }

    /** handleCreateService; `parsedPrice` is what `Number` makes of the
        price text once its first comma is a dot. */
    method CreateService(name: string, description: string, priceText: string, parsedPrice: Option<int>,
                         insert: InsertResult)
      requires Valid()
      requires insert.Inserted? ==> ServiceIdUnused(insert.id)
      modifies this
      ensures Valid()
      ensures categories == old(categories) && selectedCategoryId == old(selectedCategoryId)
      ensures categoryMessage == old(categoryMessage)
      ensures old(selectedCategoryId) == "" ==>
                services == old(services) && serviceMessage == Some(CategorySelectionMissing)
      ensures old(selectedCategoryId) != "" && IsBlank(name) ==>
                services == old(services) && serviceMessage == Some(ServiceNameMissing)
      ensures old(selectedCategoryId) != "" && !IsBlank(name) && ReadPrice(priceText, parsedPrice) == InvalidPrice ==>
                services == old(services) && serviceMessage == Some(PriceRejected)
      ensures old(selectedCategoryId) != "" && !IsBlank(name) && ReadPrice(priceText, parsedPrice) != InvalidPrice ==>
                if insert.InsertFailed? then
                  services == old(services) && serviceMessage == Some(ErrorText(insert.message, "Failed to create service."))
                else
                  var price := if ReadPrice(priceText, parsedPrice).Price? then Some(parsedPrice.value) else None;
                  services == old(services) + [Service(insert.id, old(selectedCategoryId), Trim(name), OptionalText(description), true, price)]
                  && serviceMessage == Some("Service created.")
    {
      if selectedCategoryId == "" {
        serviceMessage := Some(CategorySelectionMissing);
        return;
      }
      if Trim(name) == "" {
        serviceMessage := Some(ServiceNameMissing);
        return;
      }
      var priceValue: Option<int> := None;
      match ReadPrice(priceText, parsedPrice) {
        case InvalidPrice =>
          serviceMessage := Some(PriceRejected);
          return;
        case Price(value) =>
          priceValue := Some(value);
        case NoPrice =>
      }
      serviceMessage := None;
      match insert {
        case InsertFailed(message) =>
          serviceMessage := Some(ErrorText(message, "Failed to create service."));
        case Inserted(id) =>
          var trimmedName, desc := Trim(name), OptionalText(description);
          var row := Service(id, selectedCategoryId, trimmedName, desc, true, priceValue);
          services := services + [row];
          serviceMessage := Some("Service created.");
      }
    }

    /** handleSaveService: the name and the price are checked; the category
        field is written as it stands. */
    method SaveService(serviceId: string, name: string, description: string, categoryId: string,
                       priceText: string, parsedPrice: Option<int>, update: WriteResult)
      requires Valid()
      modifies this
      ensures Valid()
      ensures categories == old(categories) && selectedCategoryId == old(selectedCategoryId)
      ensures categoryMessage == old(categoryMessage)
      ensures IsBlank(name) ==> services == old(services) && serviceMessage == Some(ServiceNameMissing)
      ensures !IsBlank(name) && ReadPrice(priceText, parsedPrice) == InvalidPrice ==>
                services == old(services) && serviceMessage == Some(PriceRejected)
      ensures !IsBlank(name) && ReadPrice(priceText, parsedPrice) != InvalidPrice ==>
                if update.WriteFailed? then
                  services == old(services) && serviceMessage == Some(ErrorText(update.message, "Failed to update service."))
                else
                  var price := if ReadPrice(priceText, parsedPrice).Price? then Some(parsedPrice.value) else None;
                  services == ReplaceService(old(services), serviceId, Trim(name), OptionalText(description), categoryId, price)
                  && serviceMessage == Some("Service updated.")
    {
      if Trim(name) == "" {
        serviceMessage := Some(ServiceNameMissing);
        return;
      }
      var priceValue: Option<int> := None;
      match ReadPrice(priceText, parsedPrice) {
        case InvalidPrice =>
          serviceMessage := Some(PriceRejected);
          return;
        case Price(value) =>
          priceValue := Some(value);
        case NoPrice =>
      }
      serviceMessage := None;
      match update {
        case WriteFailed(message) =>
          serviceMessage := Some(ErrorText(message, "Failed to update service."));
        case Written =>
          var trimmedName, desc := Trim(name), OptionalText(description);
          services := ReplaceService(services, serviceId, trimmedName, desc, categoryId, priceValue);
          serviceMessage := Some("Service updated.");
      }
    }

    /** handleDeleteService */
    method DeleteService(serviceId: string, delete: WriteResult)
      requires Valid()
      modifies this
      ensures Valid()
      ensures categories == old(categories) && selectedCategoryId == old(selectedCategoryId)
      ensures categoryMessage == old(categoryMessage)
      ensures delete.WriteFailed? ==>
                services == old(services) && serviceMessage == Some(ErrorText(delete.message, "Failed to delete service."))
      ensures delete.Written? ==>
                services == RemoveService(old(services), serviceId) && serviceMessage == Some("Service deleted.")
    {
      serviceMessage := None;
      match delete {
        case WriteFailed(message) =>
          serviceMessage := Some(ErrorText(message, "Failed to delete service."));
        case Written =>
          FilterKeepsPairwise(services, (s: Service) => s.id != serviceId, (a: Service, b: Service) => a.id != b.id);
          services := RemoveService(services, serviceId);
          serviceMessage := Some("Service deleted.");
      }
    }
  }
}
